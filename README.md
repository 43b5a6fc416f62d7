# Vehicle query core, modelled in Dafny

This project models the query side of the vehicles API: how a search is built
and how it is answered.

- A `QueryVehiclesRequest` is validated and turned into a `VehicleQuery`.
- `VehicleQuery` is a fluent builder over a `PageQuery` and five `RangeQuery`
  objects.
- `VehicleQueryHandler.Handle` runs the query over the stored records. It applies
  the chain of filters, skips to the page, takes the page size and projects each
  record with `VehicleDto.FromDomainModel`.
- Beside this path sit the direct queries of `JsonVehiclesRepository`,
  `RequestValidationResult`, and the Levenshtein distance of `StringMatchingUtils`.

The model follows the code as written, including its quirks:

- The handler compares the trim criterion with the record's *Model*.
- `ToQuery` passes the CO2 bounds to `WithEngineSize`, so the request's
  engine-size bounds are never used.
- The date filter always runs, so a record whose date text does not parse is
  never returned, even with no date bound.
- A request's default page size is 10, while a fresh `VehicleQuery` uses 50.
- The page offset `(PageNumber - 1) * PageSize` is computed in unchecked 32-bit
  arithmetic and can wrap to a negative number, which `Skip` treats as zero.
  `Paging.OffsetWrapsForLastPageNumber` exhibits this.

Builders that update objects in place (`VehicleQuery`, `PageQuery`,
`RangeQuery`, `RequestValidationResult`, `QueryVehiclesRequest`) are classes
whose methods state their whole new state.

- The criteria of a `VehicleQuery` are read as one `Criteria` value through
  `Current()`.
- Each `With*` method changes one criterion and nothing else: a text field,
  the page number or size, or the bounds of one range.
- The filters, paging and projection are functions over sequences, because
  LINQ-to-objects is pure.
- The repository never changes its list after loading it, so it is a value.
- `LevenshteinDistance` keeps its table as an `array2` and its loops. It is
  proved equal to the recursive definition `EditDistance`.

The two culture services the core calls, `DateTime.TryParse` and the case
folding behind `InvariantCultureIgnoreCase`, are parameters of type `Culture`
and stay uninterpreted. `decimal` is a bounded `real`. A `DateTime` is its tick
count. An exception becomes the `Failure` case of a `Result`.

## Model

| member | source | states |
|---|---|---|
| `Ranges.RangeQuery.constructor` | Vehicles.Application/Queries/RangeQuery.cs:3-7 | The range starts with the given bounds and uses T's CompareTo. |
| `Ranges.RangeQuery.WithMin` | Vehicles.Application/Queries/RangeQuery.cs:9-13 | Replaces only the lower bound and returns the same object. |
| `Ranges.RangeQuery.WithMax` | Vehicles.Application/Queries/RangeQuery.cs:15-19 | Replaces only the upper bound and returns the same object. |
| `Ranges.StandardComparersAreOrderings` | Vehicles.Application/Queries/RangeQuery.cs:21-24 | The CompareTo of int, DateTime and decimal are consistent orderings: antisymmetric in sign and transitive. |
| `Ranges.StandardRangesAreInclusive` | Vehicles.Application/Queries/RangeQuery.cs:21-24 | With the CompareTo of int, DateTime or decimal, IsInRange holds iff the value lies between min and max, both included. |
| `Ranges.InvertedRangeIsEmpty` | Vehicles.Application/Queries/RangeQuery.cs:21-24 | With an ordering comparer, a range whose min lies after its max contains no value at all. |
| `Paging.PageQuery.constructor` | Vehicles.Application/Queries/PageQuery.cs:3-9 | Page number and size start at the given values, which are kept as the fallbacks. |
| `Paging.PageQuery.WithPageNumber` | Vehicles.Application/Queries/PageQuery.cs:11-15 | The given number is set; a missing one resets to the construction-time number, not the previous one. |
| `Paging.PageQuery.WithPageSize` | Vehicles.Application/Queries/PageQuery.cs:17-21 | The given size is set; a missing one resets to the construction-time size. |
| `Paging.WrapInt32` | Vehicles.Application/Queries/Vehicles/VehicleQueryHandler.cs:82 | The result is congruent to the input modulo 2^32, and equals it whenever the input fits in an int. |
| `Paging.Offset` | Vehicles.Application/Queries/Vehicles/VehicleQueryHandler.cs:82 | The skip count is congruent to `(PageNumber - 1) * PageSize` modulo 2^32, so it is the unchecked int value of that product. It equals the product whenever the product fits in an int. |
| `Paging.OffsetWrapsForLastPageNumber` | Vehicles.Application/Queries/Vehicles/VehicleQueryHandler.cs:82 | For page number int.MaxValue and size 100 the offset wraps to -200. |
| `Queries.VehicleQuery.constructor` | Vehicles.Application/Queries/Vehicles/VehicleQuery.cs:5-19 | A fresh query is page 1 of size 50, has every range spanning its whole domain (price 0 to decimal.MaxValue, ints 0 to int.MaxValue, dates MinValue to MaxValue), and has no text criterion. |
| `Queries.VehicleQuery.WithPageNumber` | Vehicles.Application/Queries/Vehicles/VehicleQuery.cs:21-25 | Only the page number changes: to the given one, or back to 1. |
| `Queries.VehicleQuery.WithPageSize` | Vehicles.Application/Queries/Vehicles/VehicleQuery.cs:27-32 | Only the page size changes: to the given one capped at 100, or back to 50. |
| `Queries.VehicleQuery.WithMake` | Vehicles.Application/Queries/Vehicles/VehicleQuery.cs:34-38 | Only the make criterion changes, to the given value (null clears it). |
| `Queries.VehicleQuery.WithModel` | Vehicles.Application/Queries/Vehicles/VehicleQuery.cs:40-44 | Only the model criterion changes. |
| `Queries.VehicleQuery.WithTrim` | Vehicles.Application/Queries/Vehicles/VehicleQuery.cs:46-50 | Only the trim criterion changes. |
| `Queries.VehicleQuery.WithColour` | Vehicles.Application/Queries/Vehicles/VehicleQuery.cs:52-56 | Only the colour criterion changes. |
| `Queries.VehicleQuery.WithCo2Level` | Vehicles.Application/Queries/Vehicles/VehicleQuery.cs:58-71 | Only the CO2 bounds change: each given bound replaces its old value, and a missing one keeps it. |
| `Queries.VehicleQuery.WithTransmission` | Vehicles.Application/Queries/Vehicles/VehicleQuery.cs:73-77 | Only the transmission criterion changes. |
| `Queries.VehicleQuery.WithFuelType` | Vehicles.Application/Queries/Vehicles/VehicleQuery.cs:79-83 | Only the fuel type criterion changes. |
| `Queries.VehicleQuery.WithEngineSize` | Vehicles.Application/Queries/Vehicles/VehicleQuery.cs:85-98 | Only the engine-size bounds change; a missing bound keeps its value. |
| `Queries.VehicleQuery.WithDateFirstRegistered` | Vehicles.Application/Queries/Vehicles/VehicleQuery.cs:100-113 | Only the date bounds change; a missing bound keeps its value. |
| `Queries.VehicleQuery.WithPrice` | Vehicles.Application/Queries/Vehicles/VehicleQuery.cs:115-128 | Only the price bounds change; a missing bound keeps its value. |
| `Queries.VehicleQuery.WithMileage` | Vehicles.Application/Queries/Vehicles/VehicleQuery.cs:130-143 | Only the mileage bounds change; a missing bound keeps its value. |
| `Handler.Matches` | Vehicles.Application/Queries/Vehicles/VehicleQueryHandler.cs:20-78 | The conjunction of the chain's filters. A passing record has a parsable date, and each given text criterion equals its field ignoring case, with trim compared against Model. The numeric bounds and the converse are in `Handler.MatchesExactly`. |
| `Handler.Where` | Vehicles.Application/Queries/Vehicles/VehicleQueryHandler.cs:18-79 | The filtered sequence is no longer than the input, and every record in it passes every filter of the chain. |
| `Handler.WhereMembership` | Vehicles.Application/Queries/Vehicles/VehicleQueryHandler.cs:18-79 | A record survives the filter chain if and only if it is stored and passes every filter. |
| `Handler.WhereAppend` | Vehicles.Application/Queries/Vehicles/VehicleQueryHandler.cs:18-79 | Filtering distributes over concatenation, so stored order is kept. |
| `Handler.MatchesExactly` | Vehicles.Application/Queries/Vehicles/VehicleQueryHandler.cs:20-78 | A record passes the chain iff each numeric field is within its inclusive bounds, each given text criterion equals its field ignoring case (trim against Model), and the date parses into the date range. |
| `Handler.DefaultCriteriaKeepParsableRecords` | Vehicles.Application/Queries/Vehicles/VehicleQueryHandler.cs:65-79 | Under a fresh query's criteria, a record passes iff its numbers are non-negative and its date parses. The date filter runs with no date bound given. |
| `Handler.Page` | Vehicles.Application/Queries/Vehicles/VehicleQueryHandler.cs:81-83 | The page holds at most PageSize records (none for a non-positive size), all passing the filters. |
| `Handler.PageIsSliceOfMatches` | Vehicles.Application/Queries/Vehicles/VehicleQueryHandler.cs:81-83 | The page is the contiguous slice of the matches that starts at the clamped offset and has at most PageSize records. |
| `Handler.Handle` | Vehicles.Application/Queries/Vehicles/VehicleQueryHandler.cs:14-86 | Handling never fails to map, and returns at most PageSize items. |
| `Handler.HandleProjectsPage` | Vehicles.Application/Queries/Vehicles/VehicleQueryHandler.cs:84-85 | The result projects the page item by item, in order. |
| `Handler.HandleResultsMatch` | Vehicles.Application/Queries/Vehicles/VehicleQueryHandler.cs:14-86 | Each returned item is the projection of a stored record that passes every filter and whose date parses. |
| `Handler.HandleResultsSatisfyQuery` | Vehicles.Application/Queries/Vehicles/VehicleQueryHandler.cs:14-86 | Each returned item is within every range of the query and equals every given text criterion ignoring case. |
| `Handler.UnparsableDateExcluded` | Vehicles.Application/Queries/Vehicles/VehicleQueryHandler.cs:65-79 | A record whose date text does not parse is filtered out and is not on any page, whatever the date bounds. |
| `HandlerExamples.WhereAllMatch` | Vehicles.Application/Queries/Vehicles/VehicleQueryHandler.cs:18-79 | When every stored record passes, the filter chain returns them all, in order. |
| `HandlerExamples.NoFilterReturnsAll` | Vehicles.Tests/UnitTests/VehicleQueryHandlerTests.cs:48-59 | A fresh query returns all four stored records. |
| `HandlerExamples.OnlyRedMazdaMatches` | Vehicles.Tests/UnitTests/VehicleQueryHandlerTests.cs:61-78 | With colour Red and make Mazda, only the Mazda passes the chain. |
| `HandlerExamples.ColourAndMakeFilter` | Vehicles.Tests/UnitTests/VehicleQueryHandlerTests.cs:61-78 | Colour Red and make Mazda return one item, a red Mazda. |
| `HandlerExamples.SecondPageOfTwo` | Vehicles.Tests/UnitTests/VehicleQueryHandlerTests.cs:80-96 | Page 2 of size 2 returns two items, the first a Ford Focus. |
| `Dto.FromDomainModel` | Vehicles.Application/VehicleDto.cs:19-40 | Fails, with the DateFirstReg mapping error, exactly when the date text does not parse. Otherwise it copies every field and carries the parsed date. |
| `Dto.SelectAll` | Vehicles.Application/Queries/Vehicles/VehicleQueryHandler.cs:84-85 | The projection of a list succeeds with an item per record, in order, exactly when every record maps. Otherwise it fails with the DateFirstReg mapping error. |
| `Linq.Skip` | Vehicles.Application/Queries/Vehicles/VehicleQueryHandler.cs:82 | Drops the first n records; a negative n drops none, and an n past the end leaves none. |
| `Linq.Take` | Vehicles.Application/Queries/Vehicles/VehicleQueryHandler.cs:83 | Keeps the first n records; a negative n keeps none. |
| `Linq.Filter` | Vehicles.Infrastructure/Repositories/JsonVehiclesRepository.cs:36-48 | The result is no longer than the input, and all its elements satisfy the predicate. |
| `Linq.FilterMembership` | Vehicles.Infrastructure/Repositories/JsonVehiclesRepository.cs:36-48 | An element is kept if and only if it occurs in the input and satisfies the predicate. |
| `Linq.FilterAppend` | Vehicles.Infrastructure/Repositories/JsonVehiclesRepository.cs:36-48 | Where distributes over concatenation. |
| `Linq.PageIsSlice` | Vehicles.Infrastructure/Repositories/JsonVehiclesRepository.cs:28-34 | Skip then Take is the contiguous slice starting at the clamped skip count. |
| `Repository.JsonVehiclesRepository.Get` | Vehicles.Infrastructure/Repositories/JsonVehiclesRepository.cs:28-34 | Returns at most pageSize records. |
| `Repository.GetIsSlice` | Vehicles.Infrastructure/Repositories/JsonVehiclesRepository.cs:28-34 | Get is the stored slice from the page offset. That offset is `(pageNumber - 1) * pageSize` whenever the product fits. |
| `Repository.JsonVehiclesRepository.GetByMake` | Vehicles.Infrastructure/Repositories/JsonVehiclesRepository.cs:36-41 | Every returned record's make equals the argument ignoring case. |
| `Repository.GetByMakeExactly` | Vehicles.Infrastructure/Repositories/JsonVehiclesRepository.cs:36-41 | A record is returned iff it is stored and its make equals the argument ignoring case. |
| `Repository.JsonVehiclesRepository.GetByModel` | Vehicles.Infrastructure/Repositories/JsonVehiclesRepository.cs:43-48 | Every returned record's model equals the argument ignoring case. |
| `Repository.GetByModelExactly` | Vehicles.Infrastructure/Repositories/JsonVehiclesRepository.cs:43-48 | A record is returned iff it is stored and its model equals the argument ignoring case. |
| `Repository.JsonVehiclesRepository.UnifiedSearch` | Vehicles.Infrastructure/Repositories/JsonVehiclesRepository.cs:53-69 | A null or empty term returns every record. Otherwise each returned record has one of its six text fields containing the term, ignoring case. |
| `Repository.UnifiedSearchExactly` | Vehicles.Infrastructure/Repositories/JsonVehiclesRepository.cs:60-68 | A non-empty term returns a record iff it is stored and one of make, model, trim, colour, transmission or fuel type contains the term, ignoring case. |
| `Repository.QueriesKeepStoredOrder` | Vehicles.Infrastructure/Repositories/JsonVehiclesRepository.cs:36-69 | GetByMake, GetByModel and UnifiedSearch list their records in stored order. |
| `StringMatching.LevenshteinDistance` | Vehicles.Application/Utils/StringMatchingUtils.cs:19-67 | The returned number is the edit distance of the two strings, including the two early returns for an empty string. |
| `StringMatching.FillColumn` | Vehicles.Application/Utils/StringMatchingUtils.cs:46-63 | Given a correct previous column, one pass of the inner loop makes column j hold the distances of the prefixes and leaves the other columns alone. |
| `StringMatching.EditDistanceToSelf` | Vehicles.Application/Utils/StringMatchingUtils.cs:19-67 | A string is at distance 0 from itself. |
| `StringMatching.EditDistanceZeroIffEqual` | Vehicles.Application/Utils/StringMatchingUtils.cs:19-67 | The distance is 0 exactly when the strings are equal. |
| `StringMatching.EditDistanceAtMostLonger` | Vehicles.Application/Utils/StringMatchingUtils.cs:19-67 | The distance is at most the length of the longer string. |
| `StringMatching.EditDistanceAtLeastLengthDifference` | Vehicles.Application/Utils/StringMatchingUtils.cs:19-67 | The distance is at least the difference in length. |
| `StringMatching.EditDistanceSymmetric` | Vehicles.Application/Utils/StringMatchingUtils.cs:19-67 | The distance does not depend on the order of the arguments. |
| `Validation.WithError` | Vehicles.Api/Requests/RequestValidationResult.cs:11-19 | The dictionary gains the field if it was missing, the field's list gains the message at its end, and every other field keeps its list. |
| `Validation.ErrorsOfKeys` | Vehicles.Api/Requests/RequestValidationResult.cs:11-19 | After a sequence of AddError calls, the keys are exactly the field names passed. |
| `Validation.ErrorsOfMessages` | Vehicles.Api/Requests/RequestValidationResult.cs:11-19 | Each field's list holds its messages in call order, duplicates kept. A field is listed iff it received a message. |
| `Validation.RequestValidationResult.constructor` | Vehicles.Api/Requests/RequestValidationResult.cs:8-9 | A new result has no errors and is valid. |
| `Validation.RequestValidationResult.AddError` | Vehicles.Api/Requests/RequestValidationResult.cs:11-19 | The dictionary becomes WithError of the old one. The result is no longer valid, and no field is listed without a message. |
| `Validation.RequestValidationResult.IsValid` | Vehicles.Api/Requests/RequestValidationResult.cs:21 | Valid means no field has an error message. |
| `Requests.QueryVehiclesRequest.constructor` | Vehicles.Api/Requests/QueryVehiclesRequest.cs:10-45 | A new request is page 1 of size 10, with every optional property null. |
| `Requests.QueryVehiclesRequest.Validate` | Vehicles.Api/Requests/QueryVehiclesRequest.cs:52-77 | The result's errors are exactly the ValidationErrors dictionary of the request, and no field is listed without a message. |
| `Requests.ValidationErrorsExactly` | Vehicles.Api/Requests/QueryVehiclesRequest.cs:52-77 | An error is reported under MaxMileage, MaxPrice or MaxDateFirstRegistered iff both bounds of that pair are given and the max is below the min. Each carries its single message, and the request is valid iff no pair is inverted. |
| `Requests.ValidatedRangesAreOrdered` | Vehicles.Api/Requests/QueryVehiclesRequest.cs:52-77 | A request that passed validation and gives both bounds of mileage, price or date yields a query range that is not inverted. |
| `Requests.QueryVehiclesRequest.ToQuery` | Vehicles.Api/Requests/QueryVehiclesRequest.cs:83-101 | The query built holds exactly the request's criteria: page number, page size capped at 100, every given bound or its default, and the CO2 bounds as engine-size bounds. |
| `Requests.QueryCriteriaShape` | Vehicles.Api/Requests/QueryVehiclesRequest.cs:83-101 | The query never asks for more than 100 items per page and keeps a smaller size as given. Its engine-size range equals its CO2 range. |
| `Requests.DefaultRequestQuery` | Vehicles.Api/Requests/QueryVehiclesRequest.cs:10-12 | A request with nothing set becomes the default query with page size 10 instead of 50. |
| `Domain.ValueOr` | Vehicles.Application/Queries/PageQuery.cs:13 | `x ?? default`: the carried value if there is one, else the default. |
| `Domain.Min` | Vehicles.Application/Queries/Vehicles/VehicleQuery.cs:29 | Math.Min: the result is at most either argument and is one of them. |
| `Domain.CompareInt32` | Vehicles.Application/Queries/RangeQuery.cs:23 | int.CompareTo: non-positive iff a <= b, and non-negative iff a >= b. |
| `Domain.CompareDate` | Vehicles.Application/Queries/RangeQuery.cs:23 | DateTime.CompareTo on tick counts, with the same sign law. |
| `Domain.CompareDecimal` | Vehicles.Application/Queries/RangeQuery.cs:23 | decimal.CompareTo, with the same sign law. |

## Left out

- The page and range objects of `Queries.VehicleQuery` are `const` fields. The
  source reassigns each property to the result of `WithMin`, `WithMax`,
  `WithPageNumber` or `WithPageSize`. Those methods return the same object, so
  the reassignment changes nothing and is not modelled.
- `Repository.JsonVehiclesRepository.GetAll`: it returns the live list. Callers
  mutating that list, and so changing the repository, is aliasing the value
  model does not capture. It carries no row because its contract restates its
  body.
- Loading the JSON file (the repository constructor), logging, JSON
  serialisation of the query, the HTTP controller and dependency injection are
  left out. They are I/O or framework code.
- The IQueryable versus IEnumerable distinction in the handler is left out.
  Both evaluate the same filters in order over an in-memory list.
- DateTime.TryParse and invariant-culture case folding are uninterpreted
  functions of a `Culture`, so date formats and Unicode case rules are not
  modelled. `HandlerExamples` states as preconditions the facts its scenarios
  need: the four dates parse, and "Mazda" folds differently from the other
  makes.
- Strings are sequences of Unicode scalar values, not of UTF-16 code units.
  `LevenshteinDistance` and its early returns count a character outside the
  Basic Multilingual Plane once, where C#'s `Length` and indexing count and
  compare its two surrogate halves.
- `decimal` is an exact bounded real. Its 28-digit rounding is not modelled;
  no operation of the core does decimal arithmetic.
- The key enumeration order of the validation dictionary is not modelled. The
  call order of `AddError` is kept in each field's message list
  (`Validation.ErrorsOfMessages`).
- `Domain.CompareInt32`, `Domain.CompareDate` and `Domain.CompareDecimal` are
  stated by their sign only. CompareTo's exact return values are not used by
  `IsInRange`.
