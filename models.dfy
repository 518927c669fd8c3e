/**
 * The records the proximity service passes around (models/model.go).
 * Coordinates are degrees; `float64` is modelled by `real`.
 */
module Models {
  import opened Wrappers

  /** A point on the globe; the field order follows the Go struct. */
  datatype Location = Location(longitude: real, latitude: real)

  /** A business as stored in the database; `dist` is only set on query answers. */
  datatype Business = Business(
    id: string,
    name: string,
    location: Location,
    phone: string,
    city: string,
    state: string,
    zipCode: string,
    dist: Option<real>)

  /** A proximity query: a centre and a radius in kilometres. */
  datatype NearbySearchRequest = NearbySearchRequest(userLocation: Location, radius: real)

  /** What the quadtree stores and returns: an identifier, a location and a distance. */
  datatype BusinessSearch = BusinessSearch(businessId: string, location: Location, dist: real)
}
