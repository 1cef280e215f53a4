/**
 * The latitude and longitude validators. The three coordinate-bearing request
 * schemas (sales territory, nearby competition, reverse geocode) each declare
 * the same pair; they are defined once here.
 */
module Coordinates {
  import opened Wrappers
  import opened Json

  const InvalidCoordinateInputs: string := "Invalid Coordinate Inputs"

  /** `latitude_validation`: the value itself when -90 <= latitude <= 90, else a rejection. */
  function ValidateLatitude(latitude: real): (r: Checked<real>)
    ensures r.Ok? <==> -90.0 <= latitude <= 90.0
    ensures r.Ok? ==> r.value == latitude
    ensures r.Err? ==> r.error == [FieldError([Key("latitude")], Rejected(InvalidCoordinateInputs))]
  {
    if !(-90.0 <= latitude <= 90.0) then Reject("latitude", InvalidCoordinateInputs) else Ok(latitude)
  }

  /** `longitude_validation`: the value itself when -180 <= longitude <= 180, else a rejection. */
  function ValidateLongitude(longitude: real): (r: Checked<real>)
    ensures r.Ok? <==> -180.0 <= longitude <= 180.0
    ensures r.Ok? ==> r.value == longitude
    ensures r.Err? ==> r.error == [FieldError([Key("longitude")], Rejected(InvalidCoordinateInputs))]
  {
    if !(-180.0 <= longitude <= 180.0) then Reject("longitude", InvalidCoordinateInputs) else Ok(longitude)
  }

  /** Runs a validator on a value that decoded, keeping the decoding errors otherwise. */
  function Then<T>(r: Checked<T>, validate: T -> Checked<T>): Checked<T> {
    if r.Ok? then validate(r.value) else r
  }
}
