/**
 * The `Location` managed object: its stored fields, the values derived from them,
 * and the persistent counter that hands out photo IDs.
 */
module LocationRecord {
  import opened Wrappers
  import opened Geo

  /** The text a location with an empty description shows in place of one. */
  const NoDescription := "(No Description)"

  predicate IsDigit(c: char)
  {
    '0' <= c <= '9'
  }

  function DigitChar(d: nat): (c: char)
    requires d < 10
    ensures IsDigit(c) && c as int - '0' as int == d
  {
    "0123456789"[d]
  }

  /** The decimal digits of `n`, most significant first, without leading zeros. */
  function Decimal(n: nat): (r: string)
    ensures |r| > 0
    ensures forall i :: 0 <= i < |r| ==> IsDigit(r[i])
    decreases n
  {
    if n < 10 then [DigitChar(n)] else Decimal(n / 10) + [DigitChar(n % 10)]
  }

  /** The number a string of decimal digits denotes. */
  function DecimalValue(s: string): nat
    requires forall i :: 0 <= i < |s| ==> IsDigit(s[i])
  {
    if s == [] then 0
    else
      assert IsDigit(s[|s| - 1]);
      DecimalValue(s[..|s| - 1]) * 10 + (s[|s| - 1] as int - '0' as int)
  }

  /** Reading the digits back gives the number: `Decimal` loses nothing. */
  lemma {:induction false} DecimalRoundTrip(n: nat)
    ensures DecimalValue(Decimal(n)) == n
    decreases n
  {
    if n >= 10 {
      DecimalRoundTrip(n / 10);
      var r := Decimal(n);
      assert r[..|r| - 1] == Decimal(n / 10);
    }
  }

  /** String interpolation of an integer, as in `"\(id)"`. */
  function IntText(n: int): string
  {
    if n < 0 then "-" + Decimal(-n) else Decimal(n)
  }

  /** The file name `photoURL` uses for photo `id`: `Photo-<id>.jpg`. */
  function PhotoFilename(id: int): string
  {
    "Photo-" + IntText(id) + ".jpg"
  }

  /** The digits of two different numbers differ. */
  lemma {:induction false} DecimalInjective(m: nat, n: nat)
    requires Decimal(m) == Decimal(n)
    ensures m == n
  {
    DecimalRoundTrip(m);
    DecimalRoundTrip(n);
  }

  /** Integer interpolation is injective: the sign and the digits determine the number. */
  lemma {:induction false} IntTextInjective(a: int, b: int)
    requires IntText(a) == IntText(b)
    ensures a == b
  {
    var ta, tb := IntText(a), IntText(b);
    assert a < 0 <==> ta[0] == '-' by {
      if a >= 0 { assert IsDigit(Decimal(a)[0]); }
    }
    assert b < 0 <==> tb[0] == '-' by {
      if b >= 0 { assert IsDigit(Decimal(b)[0]); }
    }
    if a < 0 {
      assert ta[1..] == Decimal(-a);
      assert tb[1..] == Decimal(-b);
      DecimalInjective(-a, -b);
    } else {
      DecimalInjective(a, b);
    }
  }

  /** Different photo IDs never share a file. */
  lemma {:induction false} PhotoFilenameInjective(a: int, b: int)
    requires PhotoFilename(a) == PhotoFilename(b)
    ensures a == b
  {
    var f, ta, tb := PhotoFilename(a), IntText(a), IntText(b);
    assert |ta| == |tb|;
    assert forall i :: 0 <= i < |ta| ==> ta[i] == f[6 + i] == tb[i];
    assert ta == tb;
    IntTextInjective(a, b);
  }

  /** A photo as the app holds it (`UIImage`); its pixels are not modelled. */
  datatype Image = Image(width: nat, height: nat)

  /** A saved location; Core Data updates its fields in place. */
  class Location {
    var latitude: real
    var longitude: real
    var date: real
    var locationDescription: string
    var category: string
    var placemark: Option<Placemark>
    var photoID: Option<int>

    /** A fresh managed object, before the editor fills it in. */
    constructor ()
      ensures latitude == 0.0 && longitude == 0.0 && date == 0.0
      ensures locationDescription == "" && category == ""
      ensures placemark == None && photoID == None
    {
      latitude, longitude, date := 0.0, 0.0, 0.0;
      locationDescription, category := "", "";
      placemark, photoID := None, None;
    }

    /** The map annotation's `coordinate`. */
    function Coordinate(): (c: Coordinate)
      reads this
      ensures c.latitude == latitude && c.longitude == longitude
    {
      Geo.Coordinate(latitude, longitude)
    }

    /** The annotation `title`: never empty, and the description whenever there is one. */
    function Title(): (t: string)
      reads this
      ensures t != ""
      ensures locationDescription != "" ==> t == locationDescription
      ensures locationDescription == "" ==> t == NoDescription
    {
      if locationDescription == "" then NoDescription else locationDescription
    }

    /** The annotation `subtitle`: the category. */
    function Subtitle(): (t: string)
      reads this
      ensures t == category
    {
      category
    }

    /** A location has a photo exactly when it carries a photo ID. */
    predicate HasPhoto()
      reads this
      ensures HasPhoto() <==> photoID.Some?
    {
      photoID != None
    }

    /** The last path component of `photoURL`; asking without a photo ID is an assertion failure. */
    function PhotoFile(): (name: string)
      reads this
      requires photoID.Some?
      ensures name == PhotoFilename(photoID.value)
      ensures name[..6] == "Photo-" && name[|name| - 4..] == ".jpg"
    {
      PhotoFilename(photoID.value)
    }

    /** `removePhotoFile`: deletes the photo's file, and touches nothing without a photo. */
    method RemovePhotoFile(docs: Documents)
      modifies docs
      ensures HasPhoto() ==> docs.files == old(docs.files) - {PhotoFile()}
      ensures !HasPhoto() ==> docs.files == old(docs.files)
    {
      if HasPhoto() {
        docs.files := docs.files - {PhotoFile()};
      }
    }
  }

  /** The file names in the app's documents directory. */
  class Documents {
    var files: set<string>

    constructor (files: set<string>)
      ensures this.files == files
    {
      this.files := files;
    }
  }

  /** The "PhotoID" integer in the user defaults, which reads as 0 until first written. */
  class PhotoIdCounter {
    var stored: int

    constructor ()
      ensures stored == 0
    {
      stored := 0;
    }

    /** `nextPhotoID()`: hands out the stored value and stores the next one. */
    method NextPhotoID() returns (id: int)
      modifies this
      ensures id == old(stored)
      ensures stored == id + 1
    {
      id := stored;
      stored := id + 1;
    }
  }

  /** Two successive draws are consecutive, so they differ and name different files. */
  method TwoPhotoIds(counter: PhotoIdCounter) returns (first: int, second: int)
    modifies counter
    ensures first == old(counter.stored) && second == first + 1
    ensures counter.stored == second + 1
    ensures PhotoFilename(first) != PhotoFilename(second)
  {
    first := counter.NextPhotoID();
    second := counter.NextPhotoID();
    if PhotoFilename(first) == PhotoFilename(second) {
      PhotoFilenameInjective(first, second);
    }
  }
}
