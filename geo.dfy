/** Leaflet's coordinate records, as the layer passes them around. */
module Geo {
  /** A `L.LatLng`: latitude and longitude in degrees. */
  datatype LatLng = LatLng(lat: real, lng: real)

  /** A `L.LatLngBounds`: the south-west and north-east corners of a rectangle. */
  datatype Bounds = Bounds(southWest: LatLng, northEast: LatLng)
}
