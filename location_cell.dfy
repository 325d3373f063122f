/** A row of the Locations list: description, short address and thumbnail. */
module LocationCell {
  import opened Wrappers
  import opened Geo
  import opened StringAddText
  import opened LocationRecord

  /** The address label: an address, or the "Lat: %.8f, Long: %.8f" text for these coordinates. */
  datatype AddressText = Street(text: string) | LatLong(latitude: real, longitude: real)

  /** The image view: the stored photo scaled into 52 x 52 points, or the "No Photo" asset. */
  datatype Thumbnail = Resized(image: Image) | NoPhotoAsset

  datatype CellContent = CellContent(description: string, address: AddressText, thumbnail: Thumbnail)

  /** The short address: house number, then street after " ", then city after ", ". */
  function CellAddress(p: Placemark): string
  {
    AddText(AddText(AddText("", p.subThoroughfare, ""), p.thoroughfare, " "), p.locality, ", ")
  }

  /**
   * `thumbnail(for:)`: the stored photo only when the location has one and it loads
   * (`photoImage`, the result of reading the photo file, is only consulted then).
   */
  function ThumbnailFor(hasPhoto: bool, photoImage: Option<Image>): (t: Thumbnail)
    ensures t.Resized? <==> hasPhoto && photoImage.Some?
    ensures t.Resized? ==> t.image == photoImage.value
  {
    if hasPhoto && photoImage.Some? then Resized(photoImage.value) else NoPhotoAsset
  }

  /** `configure(for:)`; `photoImage` is what loading the location's photo file gives. */
  method Configure(location: Location, photoImage: Option<Image>) returns (c: CellContent)
    ensures c.description == location.Title()
    ensures location.placemark.Some? ==> c.address == Street(CellAddress(location.placemark.value))
    ensures location.placemark.None? ==> c.address == LatLong(location.latitude, location.longitude)
    ensures c.thumbnail == ThumbnailFor(location.HasPhoto(), photoImage)
  {
    var description := location.Title();
    var address: AddressText;
    if location.placemark.Some? {
      var p := location.placemark.value;
      var text := "";
      text := Add(text, p.subThoroughfare);
      text := Add(text, p.thoroughfare, " ");
      text := Add(text, p.locality, ", ");
      address := Street(text);
    } else {
      address := LatLong(location.latitude, location.longitude);
    }
    var thumbnail := NoPhotoAsset;
    if location.HasPhoto() && photoImage.Some? {
      thumbnail := Resized(photoImage.value);
    }
    c := CellContent(description, address, thumbnail);
  }

  /** The short address is the reference join of its three fields. */
  lemma CellAddressIsJoin(p: Placemark)
    ensures CellAddress(p) == Joined([Part("", p.subThoroughfare), Part(" ", p.thoroughfare), Part(", ", p.locality)])
  {
    var a, b, c := Part("", p.subThoroughfare), Part(" ", p.thoroughfare), Part(", ", p.locality);
    AddAllSnoc("", [], a);
    AddAllSnoc("", [a], b);
    AddAllSnoc("", [a, b], c);
    assert [a] + [b] == [a, b] && [a, b] + [c] == [a, b, c];
    AddAllJoins([a, b, c]);
  }

  /** With all three fields: "house street, city". */
  lemma CellAddressAllFields(sub: string, street: string, city: string)
    requires sub != ""
    ensures CellAddress(Placemark(Some(sub), Some(street), Some(city), None, None, None))
         == sub + " " + street + ", " + city
  {
    assert AddText(AddText("", Some(sub), ""), Some(street), " ") == sub + " " + street;
  }

  /** Without a house number the street leads, with no separator before it. */
  lemma CellAddressNoHouseNumber(street: string, city: string)
    requires street != ""
    ensures CellAddress(Placemark(None, Some(street), Some(city), None, None, None)) == street + ", " + city
  {
  }

  /** Fields beyond the city never reach the short address. */
  lemma CellAddressIgnoresRest(p: Placemark, q: Placemark)
    requires p.subThoroughfare == q.subThoroughfare && p.thoroughfare == q.thoroughfare && p.locality == q.locality
    ensures CellAddress(p) == CellAddress(q)
  {
  }
}
