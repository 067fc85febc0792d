/**
 * The location service. The address lookup is a network call and the great-circle distance is
 * floating-point trigonometry, so both are parameters of the operations that use them; this module
 * fixes only what the wrapper around the lookup guarantees.
 */
module Geo {
  import opened Wrappers

  datatype Coord = Coord(lat: real, lng: real)

  /** Nominatim lookup as seen by the API: a best-effort answer for any text. */
  type Resolver = string -> Option<Coord>

  /**
   * `haversine_km`: the distance in kilometres between (lat1, lng1) and (lat2, lng2), or `None`
   * where it raises `ValueError` (a math domain error, as `sin` of an infinite float does).
   */
  type Distance = (real, real, real, real) -> Option<real>

  /**
   * `geocode_location`: empty text is never sent to the resolver and yields no coordinates;
   * any other text gets whatever the resolver answers (failures already folded into None).
   */
  function Geocode(lookup: Resolver, text: string): (r: Option<Coord>)
    ensures text == "" ==> r == None
    ensures text != "" ==> r == lookup(text)
  {
    if text == "" then None else lookup(text)
  }

  function Latitude(c: Option<Coord>): (r: Option<real>)
    ensures r.Some? <==> c.Some?
  {
    if c.Some? then Some(c.value.lat) else None
  }

  function Longitude(c: Option<Coord>): (r: Option<real>)
    ensures r.Some? <==> c.Some?
  {
    if c.Some? then Some(c.value.lng) else None
  }
}
