/**
 * The geographic collaborators of the service (src/utils/geo.py), kept abstract:
 * the geocoder is an HTTP client and the distance is floating-point trigonometry.
 */
module Geo {
  import opened Wrappers

  /** `geocode_address`: a free-text address to (latitude, longitude), or `None` when the provider finds nothing. */
  type Geocoder = string -> Option<(real, real)>

  /** `haversine_distance(lat1, lon1, lat2, lon2)` in kilometres. */
  type Distance = (real, real, real, real) -> real
}
