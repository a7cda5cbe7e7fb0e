/** Code the parser calls but that is not part of this model: each is a
    parameter, a total function with no further properties assumed. */
module External {
  import TurnTypes

  /** A decoded route point, latitude and longitude in degrees. */
  datatype LatLon = LatLon(lat: real, lon: real)

  datatype Env = Env(
    // GeoPolylineParserUtil.parse(encoded, precision)
    decodePolyline: (string, int) -> seq<LatLon>,
    // MapUtils.areLatLonEqual(location, lat, lon), a tolerance-based comparison
    areLatLonEqual: (LatLon, real, real) -> bool,
    // MapUtils.degreesDiff(a1, a2)
    degreesDiff: (int, int) -> real,
    // RouteCalculationResult.toString(turnType, app, false), the localized turn text
    turnText: TurnTypes.TurnType -> string)

  /** GeoPolylineParserUtil.PRECISION_5 */
  const PRECISION_5: int := 5
}
