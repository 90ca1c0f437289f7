/** The Coordinate value object: a latitude and a longitude in degrees, range-checked on creation. */
module Coordinates {
  import opened Wrappers
  import opened Primitives

  datatype Coordinate = Coordinate(latitude: real, longitude: real)

  /** (0, 0), the coordinate used when a document gives none. */
  const Origin := Coordinate(0.0, 0.0)

  const LatitudeMessage := "Latitude must be between -90 and 90."
  const LongitudeMessage := "Longitude must be between -180 and 180."

  predicate LatitudeInRange(latitude: real) { -90.0 <= latitude <= 90.0 }

  predicate LongitudeInRange(longitude: real) { -180.0 <= longitude <= 180.0 }

  /** Every coordinate the service holds lies on the globe. */
  predicate Valid(c: Coordinate)
  {
    LatitudeInRange(c.latitude) && LongitudeInRange(c.longitude)
  }

  /**
   * `Coordinate.Create`: accepts exactly the pairs within the inclusive bounds and keeps
   * them as given; the latitude is checked first, so it is the one reported when both
   * are out of range.
   */
  function Create(latitude: real, longitude: real): (r: Result<Coordinate, Exception>)
    ensures r.Success? <==> LatitudeInRange(latitude) && LongitudeInRange(longitude)
    ensures r.Success? ==> r.value == Coordinate(latitude, longitude) && Valid(r.value)
    ensures !LatitudeInRange(latitude) ==>
      r == Failure(ArgumentOutOfRangeException("latitude", LatitudeMessage))
    ensures LatitudeInRange(latitude) && !LongitudeInRange(longitude) ==>
      r == Failure(ArgumentOutOfRangeException("longitude", LongitudeMessage))
  {
    if latitude < -90.0 || latitude > 90.0 then
      Failure(ArgumentOutOfRangeException("latitude", LatitudeMessage))
    else if longitude < -180.0 || longitude > 180.0 then
      Failure(ArgumentOutOfRangeException("longitude", LongitudeMessage))
    else
      Success(Coordinate(latitude, longitude))
  }
}
