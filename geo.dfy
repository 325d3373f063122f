/** Values shared by the screens: coordinates, reverse-geocoded placemarks and table index paths. */
module Geo {
  import opened Wrappers

  /** `CLLocationCoordinate2D`, in degrees. */
  datatype Coordinate = Coordinate(latitude: real, longitude: real)

  /** The address fields of a `CLPlacemark` that the app reads; any of them may be absent. */
  datatype Placemark = Placemark(
    subThoroughfare: Option<string>,    // house number
    thoroughfare: Option<string>,       // street
    locality: Option<string>,           // city
    administrativeArea: Option<string>, // state
    postalCode: Option<string>,
    country: Option<string>)

  /** A placemark with every field present. */
  function FullPlacemark(sub: string, street: string, city: string, state: string, zip: string, country: string): Placemark
  {
    Placemark(Some(sub), Some(street), Some(city), Some(state), Some(zip), Some(country))
  }

  /** A placemark with no field present. */
  const EmptyPlacemark := Placemark(None, None, None, None, None, None)

  /** `IndexPath(row:section:)` of a table view. */
  datatype IndexPath = IndexPath(section: nat, row: nat)
}
