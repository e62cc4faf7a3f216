/**
 * The routing service's request shapes (pkg/api/valhalla/route.go) and the
 * fields the runner extracts from a route document. A JSON document is
 * represented by the values the runner reads out of it; a field that is
 * missing reads as the zero value (false, 0, "").
 */
module RouteApi {

  /** A location of a route request. */
  datatype Location = Location(
    lat: real,
    lon: real,
    dateTime: string,
    sideOfStreet: string,
    originalIndex: int)

  /** Extra costing options; the motorcycle payload is raw JSON text, empty when unset. */
  datatype CostingOptions = CostingOptions(motorcycle: string)

  datatype DateTimeOptions = DateTimeOptions(kind: int, value: string)

  datatype RouteRequest = RouteRequest(
    locations: seq<Location>,
    costing: string,
    costingOptions: CostingOptions,
    dateTime: DateTimeOptions)

  /** The `trip.summary` facts the comparison reads. Lengths are kilometres. */
  datatype Summary = Summary(
    hasToll: bool,
    hasFerry: bool,
    hasHighway: bool,
    length: real)

  /** A decoded polyline vertex. */
  datatype Coord = Coord(lat: real, lon: real)

  /**
   * A route document (a fixture or a service response) as the runner sees
   * it: `trip.locations.0.date_time`, `trip.locations.{0,1}.{lat,lon}`,
   * `trip.legs.0.maneuvers.0.travel_type`, `trip.legs.0.shape` and
   * `trip.summary`.
   */
  datatype RouteDocument = RouteDocument(
    departAt: string,
    originLat: real,
    originLon: real,
    destinationLat: real,
    destinationLon: real,
    travelType: string,
    shape: string,
    summary: Summary)
}
