/**
 * The Tag / Edit Location screen: its address text, which rows can be selected, how an
 * existing location is copied in, and how `done()` saves into a Location.
 */
module LocationDetails {
  import opened Wrappers
  import opened Geo
  import opened StringAddText
  import opened LocationRecord

  /**
   * The address text the `add` calls of `string(from:)` build, with `streetSeparator`
   * the separator passed with the street.
   */
  function AddressWith(p: Placemark, streetSeparator: string): string
  {
    var line1 := AddText("", p.subThoroughfare, " ");
    var line2 := AddText(line1, p.thoroughfare, streetSeparator);
    var line3 := AddText(line2, p.locality, ", ");
    var line4 := AddText(line3, p.administrativeArea, ", ");
    var line5 := AddText(line4, p.postalCode, " ");
    AddText(line5, p.country, ", ")
  }

  /** The address text as written: note the ", " between house number and street. */
  function DetailsAddress(p: Placemark): string
  {
    AddressWith(p, ", ")
  }

  /** `string(from:)`, one `add` call per field. */
  method AddressText(p: Placemark) returns (line: string)
    ensures line == DetailsAddress(p)
  {
    line := "";
    line := Add(line, p.subThoroughfare, " ");
    line := Add(line, p.thoroughfare, ", ");
    line := Add(line, p.locality, ", ");
    line := Add(line, p.administrativeArea, ", ");
    line := Add(line, p.postalCode, " ");
    line := Add(line, p.country, ", ");
  }

  /** The address is the reference join of the six fields with their separators. */
  lemma AddressIsJoin(p: Placemark, streetSeparator: string)
    ensures AddressWith(p, streetSeparator) == Joined(
      [Part(" ", p.subThoroughfare), Part(streetSeparator, p.thoroughfare), Part(", ", p.locality),
       Part(", ", p.administrativeArea), Part(" ", p.postalCode), Part(", ", p.country)])
  {
    var a, b, c := Part(" ", p.subThoroughfare), Part(streetSeparator, p.thoroughfare), Part(", ", p.locality);
    var d, e, f := Part(", ", p.administrativeArea), Part(" ", p.postalCode), Part(", ", p.country);
    AddAllSnoc("", [], a);
    AddAllSnoc("", [a], b);
    AddAllSnoc("", [a, b], c);
    AddAllSnoc("", [a, b, c], d);
    AddAllSnoc("", [a, b, c, d], e);
    AddAllSnoc("", [a, b, c, d, e], f);
    assert [a] + [b] == [a, b] && [a, b] + [c] == [a, b, c] && [a, b, c] + [d] == [a, b, c, d];
    assert [a, b, c, d] + [e] == [a, b, c, d, e] && [a, b, c, d, e] + [f] == [a, b, c, d, e, f];
    AddAllJoins([a, b, c, d, e, f]);
  }

  /** With every field present: "house, street, city, state zip, country". */
  lemma AddressAllFields(sub: string, street: string, city: string, state: string, zip: string, country: string)
    requires sub != ""
    ensures DetailsAddress(FullPlacemark(sub, street, city, state, zip, country))
         == sub + ", " + street + ", " + city + ", " + state + " " + zip + ", " + country
  {
    AllFieldsWith(sub, street, city, state, zip, country, ", ");
  }

  /** The address of a full placemark for either street separator. */
  lemma AllFieldsWith(sub: string, street: string, city: string, state: string, zip: string, country: string,
                      streetSeparator: string)
    requires sub != ""
    ensures AddressWith(FullPlacemark(sub, street, city, state, zip, country), streetSeparator)
         == sub + streetSeparator + street + ", " + city + ", " + state + " " + zip + ", " + country
  {
    var line2 := sub + streetSeparator + street;
    assert AddText(AddText("", Some(sub), " "), Some(street), streetSeparator) == line2;
    var line4 := line2 + ", " + city + ", " + state;
    assert AddText(AddText(line2, Some(city), ", "), Some(state), ", ") == line4;
    assert AddText(AddText(line4, Some(zip), " "), Some(country), ", ") == line4 + " " + zip + ", " + country;
  }

  /** Absent fields contribute nothing: a lone country is the whole address ... */
  lemma AddressOnlyCountry(country: string)
    ensures DetailsAddress(Placemark(None, None, None, None, None, Some(country))) == country
  {
  }

  /** ... and a placemark without fields gives "". */
  lemma AddressNoFields()
    ensures DetailsAddress(EmptyPlacemark) == ""
  {
  }

  /**
   * The separators the address evidently intends: a space between house number and
   * street, as on the location cell, on the main screen and in the screen's earlier
   * hand-written version.
   */
  function IntendedAddress(p: Placemark): string
  {
    AddressWith(p, " ")
  }

  /** The intended address: "house street, city, state zip, country". */
  lemma IntendedAddressAllFields(sub: string, street: string, city: string, state: string, zip: string, country: string)
    requires sub != ""
    ensures IntendedAddress(FullPlacemark(sub, street, city, state, zip, country))
         == sub + " " + street + ", " + city + ", " + state + " " + zip + ", " + country
  {
    AllFieldsWith(sub, street, city, state, zip, country, " ");
  }

  /**
   * For "1" on "Infinite Loop" the written address reads "1, Infinite Loop, ..." where
   * the intended one reads "1 Infinite Loop, ...": the second character tells them apart.
   */
  lemma HouseNumberSeparatedByComma()
    ensures var p := FullPlacemark("1", "Infinite Loop", "Cupertino", "CA", "95014", "United States");
      DetailsAddress(p)[..3] == "1, " && IntendedAddress(p)[..3] == "1 I"
  {
    AddressAllFields("1", "Infinite Loop", "Cupertino", "CA", "95014", "United States");
    IntendedAddressAllFields("1", "Infinite Loop", "Cupertino", "CA", "95014", "United States");
  }

  /** The intended address differs from the written one only between house number and street. */
  lemma IntendedDiffersOnlyThere(p: Placemark)
    requires p.subThoroughfare.None? || p.subThoroughfare == Some("") || p.thoroughfare.None?
    ensures IntendedAddress(p) == DetailsAddress(p)
  {
  }

  /** `tableView(_:willSelectRowAt:)`: only the description/category and photo sections can be selected. */
  function WillSelectRow(indexPath: IndexPath): (r: Option<IndexPath>)
    ensures r.Some? <==> indexPath.section == 0 || indexPath.section == 1
    ensures r.Some? ==> r.value == indexPath
  {
    if indexPath.section == 0 || indexPath.section == 1 then Some(indexPath) else None
  }

  /** `LocationDetailsViewController`: the values being edited and the location they came from. */
  class Editor {
    var coordinate: Coordinate
    var placemark: Option<Placemark>
    var categoryName: string
    var date: real
    var descriptionText: string
    var image: Option<Image>
    var locationToEdit: Location?

    /** A new editor opened at time `now`, as the Tag button shows it. */
    constructor (now: real)
      ensures coordinate == Coordinate(0.0, 0.0) && placemark == None
      ensures categoryName == "No Category" && date == now && descriptionText == ""
      ensures image == None && locationToEdit == null
    {
      coordinate := Coordinate(0.0, 0.0);
      placemark := None;
      categoryName := "No Category";
      date := now;
      descriptionText := "";
      image := None;
      locationToEdit := null;
    }

    /** The `locationToEdit` property observer: a location is copied in, nil copies nothing. */
    method SetLocationToEdit(location: Location?)
      modifies this
      ensures locationToEdit == location && image == old(image)
      ensures location != null ==>
        && descriptionText == location.locationDescription
        && categoryName == location.category
        && date == location.date
        && coordinate == Coordinate(location.latitude, location.longitude)
        && placemark == location.placemark
      ensures location == null ==>
        && descriptionText == old(descriptionText)
        && categoryName == old(categoryName)
        && date == old(date)
        && coordinate == old(coordinate)
        && placemark == old(placemark)
    {
      locationToEdit := location;
      if location != null {
        descriptionText := location.locationDescription;
        categoryName := location.category;
        date := location.date;
        coordinate := Coordinate(location.latitude, location.longitude);
        placemark := location.placemark;
      }
    }

    /**
     * `done()`: saves into the location being edited ("Updated") or into a new one with no
     * photo ID ("Tagged"); with an image, a location without a photo draws the next ID and
     * one with a photo keeps its ID.
     */
    method Done(counter: PhotoIdCounter) returns (location: Location, hudText: string)
      modifies locationToEdit, counter
      ensures locationToEdit != null ==> location == locationToEdit && hudText == "Updated"
      ensures locationToEdit == null ==> fresh(location) && hudText == "Tagged"
      ensures location.locationDescription == descriptionText && location.category == categoryName
      ensures location.latitude == coordinate.latitude && location.longitude == coordinate.longitude
      ensures location.date == date && location.placemark == placemark
      ensures var before := if locationToEdit != null then old(locationToEdit.photoID) else None;
        if image.Some? && before.None? then
          location.photoID == Some(old(counter.stored)) && counter.stored == old(counter.stored) + 1
        else
          location.photoID == before && counter.stored == old(counter.stored)
    {
      if locationToEdit != null {
        hudText := "Updated";
        location := locationToEdit;
      } else {
        hudText := "Tagged";
        location := new Location();
        location.photoID := None;
      }
      location.locationDescription := descriptionText;
      location.category := categoryName;
      location.latitude := coordinate.latitude;
      location.longitude := coordinate.longitude;
      location.date := date;
      location.placemark := placemark;
      if image.Some? {
        if !location.HasPhoto() {
          var id := counter.NextPhotoID();
          location.photoID := Some(id);
        }
      }
    }
  }
}
