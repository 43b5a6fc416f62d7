/** `VehicleDto`: the caller-facing projection of a stored vehicle, with the
    registration date parsed. */
module Dto {
  import opened Domain

  datatype VehicleDto = VehicleDto(
    price: Decimal,
    make: string,
    model: string,
    trim: string,
    colour: string,
    co2Level: Int32,
    transmission: string,
    fuelType: string,
    engineSize: Int32,
    dateFirstReg: Date,
    mileage: Int32)

  /** The DomainMappingException raised when a record cannot be projected:
      the property that failed and the reason. */
  datatype DomainMappingError = DomainMappingError(propertyName: string, message: string)

  const DATE_MAPPING_ERROR := DomainMappingError("DateFirstReg", "Not a valid date string")

  /** Fails exactly when the stored date text does not parse; otherwise every
      field is copied and the date is the parsed value. */
  function FromDomainModel(vehicle: Vehicle, culture: Culture): (r: Result<VehicleDto, DomainMappingError>)
    ensures r.Failure? <==> culture.parseDate(vehicle.dateFirstReg).None?
    ensures r.Failure? ==> r.error == DATE_MAPPING_ERROR
    ensures r.Success? ==>
      && r.value.price == vehicle.price && r.value.make == vehicle.make
      && r.value.model == vehicle.model && r.value.trim == vehicle.trim
      && r.value.colour == vehicle.colour && r.value.co2Level == vehicle.co2Level
      && r.value.transmission == vehicle.transmission && r.value.fuelType == vehicle.fuelType
      && r.value.engineSize == vehicle.engineSize && r.value.mileage == vehicle.mileage
      && culture.parseDate(vehicle.dateFirstReg) == Some(r.value.dateFirstReg)
  {
    match culture.parseDate(vehicle.dateFirstReg)
    case None => Failure(DATE_MAPPING_ERROR)
    case Some(parsed) =>
      Success(VehicleDto(
        vehicle.price, vehicle.make, vehicle.model, vehicle.trim, vehicle.colour,
        vehicle.co2Level, vehicle.transmission, vehicle.fuelType, vehicle.engineSize,
        parsed, vehicle.mileage))
  }

  /** `Select(FromDomainModel).ToList()`: projects every record in order, and
      stops with the first mapping failure. */
  function SelectAll(vehicles: seq<Vehicle>, culture: Culture): (r: Result<seq<VehicleDto>, DomainMappingError>)
    ensures r.Success? <==> forall i :: 0 <= i < |vehicles| ==> FromDomainModel(vehicles[i], culture).Success?
    ensures r.Success? ==>
      && |r.value| == |vehicles|
      && forall i :: 0 <= i < |vehicles| ==> FromDomainModel(vehicles[i], culture) == Success(r.value[i])
    ensures r.Failure? ==> r.error == DATE_MAPPING_ERROR
  {
    if vehicles == [] then Success([])
    else
      match FromDomainModel(vehicles[0], culture)
      case Failure(e) => Failure(e)
      case Success(head) =>
        match SelectAll(vehicles[1..], culture)
        case Failure(e) => Failure(e)
        case Success(tail) => Success([head] + tail)
  }
}
