/**
 * The data shapes shared by the ride recorder and the ride review screen:
 * JavaScript numbers (only their finiteness matters here), the JSON values
 * that a stored route may hold, and the GeoJSON Feature / LineString wrapper
 * of RFC 7946 (section 3.1.4 LineString, section 3.2 Feature).
 */
module GeoJson {
  import opened Wrappers

  /** A JavaScript number. No arithmetic is done on coordinates, so a finite
      value is kept as an opaque real. */
  datatype Num = Finite(value: real) | NaN | PosInfinity | NegInfinity

  /** `Number.isFinite` on a number. */
  predicate IsFinite(n: Num) {
    n.Finite?
  }

  /** A JSON value as it may appear inside a stored `coordinates` array:
      a number, an array, or anything else (string, object, null, boolean). */
  datatype Json = JNumber(n: Num) | JArray(items: seq<Json>) | JOther

  /** A GeoJSON geometry; `coordinates` is absent when the stored object lacks it. */
  datatype Geometry = Geometry(kind: string, coordinates: Option<seq<Json>>)

  /** A GeoJSON Feature; its `properties` member is always `{}` and is not kept. */
  datatype Feature = Feature(kind: string, geometry: Option<Geometry>)

  /** A map point as the map renderer takes it. */
  datatype LatLng = LatLng(latitude: Num, longitude: Num)
}
