/**
 * The location-acquisition controller of the "Tag" screen: it keeps the best position
 * fix so far, stops when the fix is accurate enough, when it stalls or when the
 * one-minute timer fires without a fix, and resolves an address for the samples it sees.
 *
 * The controller's fields are collected in `Session`; each event is a function from the
 * old session to the new one, and `Controller` is the class whose methods carry the
 * events out field by field and are proved to agree with those functions.
 */
module CurrentLocation {
  import opened Wrappers
  import opened Geo
  import opened StringAddText

  /** A position sample reduced to what the rules read (`CLLocation`). Seconds and metres. */
  datatype Fix = Fix(timestamp: real, horizontalAccuracy: real, coordinate: Coordinate)

  /** An `NSError`: only its domain and code are ever inspected. */
  datatype NSError = NSError(domain: string, code: int)

  /** `CLAuthorizationStatus`. */
  datatype AuthorizationStatus = NotDetermined | Restricted | Denied | AuthorizedAlways | AuthorizedWhenInUse

  const CLErrorDomain := "kCLErrorDomain"
  /** `CLError.locationUnknown.rawValue`: the provider cannot tell yet and keeps trying. */
  const LocationUnknownCode := 0
  /** `CLError.denied.rawValue`. */
  const DeniedCode := 1
  /** The error recorded when the timer fires before any fix arrived. */
  const TimeoutError := NSError("MyLocationsErrorDomain", 1)
  /** `kCLLocationAccuracyNearestTenMeters`, the desired accuracy set when updates start. */
  const DesiredAccuracy: real := 10.0
  /** A sample older than this many seconds is a cached reading. */
  const MaxSampleAge: real := 5.0
  /** The stall rule: moved less than this many metres ... */
  const StallDistance: real := 1.0
  /** ... more than this many seconds after the best fix. */
  const StallInterval: real := 10.0
  /** `Double.greatestFiniteMagnitude`, the distance used while there is no best fix. */
  const GreatestFiniteMagnitude: real := 179769313486231570814527423731704356798070567525844996598917476803157260780028538760589558632766878171540458953514382464234321326889464182768467546703537516986049910576551282076245490090389328944075868508455133942304583236903222948165808559332123348274797826204144723168738177180919299881250404026184124858368.0

  /**
   * The controller's state. `timerScheduled` says the one-shot 60-second timer is still
   * due to fire; `lookupsInFlight` counts reverse-geocode requests whose completion
   * has not yet run.
   */
  datatype Session = Session(
    location: Option<Fix>,
    lastLocationError: Option<NSError>,
    updatingLocation: bool,
    placemark: Option<Placemark>,
    lastGeocodingError: Option<NSError>,
    performingReverseGeocoding: bool,
    timerScheduled: bool,
    lookupsInFlight: nat)

  const Initial := Session(None, None, false, None, None, false, false, 0)

  /**
   * What every event preserves: the timer only runs while updating, a busy geocoder
   * flag has a request behind it, and the best fix is a valid reading.
   */
  predicate Consistent(s: Session)
  {
    && (s.timerScheduled ==> s.updatingLocation)
    && (s.performingReverseGeocoding ==> s.lookupsInFlight > 0)
    && (s.location.Some? ==> s.location.value.horizontalAccuracy >= 0.0)
  }

  // ---------------------------------------------------------------- sample rules

  /** Not a cached reading: `timestamp.timeIntervalSinceNow` is not below -5 s. */
  predicate IsRecent(sample: Fix, now: real)
  {
    !(sample.timestamp - now < -MaxSampleAge)
  }

  /** The provider marks an invalid reading with a negative accuracy. */
  predicate IsValidReading(sample: Fix)
  {
    !(sample.horizontalAccuracy < 0.0)
  }

  predicate Accepted(sample: Fix, now: real)
  {
    IsRecent(sample, now) && IsValidReading(sample)
  }

  /** The sample replaces the best fix: there is none, or it is strictly more accurate. */
  predicate Improves(best: Option<Fix>, sample: Fix)
  {
    best.None? || best.value.horizontalAccuracy > sample.horizontalAccuracy
  }

  /** The sample is accurate enough to stop updating. */
  predicate MeetsDesiredAccuracy(sample: Fix)
  {
    sample.horizontalAccuracy <= DesiredAccuracy
  }

  /** The distance the rules compare: to the best fix if there is one, else the largest double. */
  function DistanceMoved(best: Option<Fix>, distanceToBest: real): real
  {
    if best.None? then GreatestFiniteMagnitude else distanceToBest
  }

  // ---------------------------------------------------------------- events

  /** `stopLocationManager`: acts only while updating; then it stops and invalidates the timer. */
  function Stop(s: Session): Session
  {
    if s.updatingLocation then s.(updatingLocation := false, timerScheduled := false) else s
  }

  /** `startLocationManager`: with location services on, updates start and the timer is scheduled. */
  function Start(s: Session, servicesEnabled: bool): Session
  {
    if servicesEnabled then s.(updatingLocation := true, timerScheduled := true) else s
  }

  /** `getLocation`, the Get My Location / Stop button. */
  function OnGetLocation(s: Session, auth: AuthorizationStatus, servicesEnabled: bool): (r: Session)
    ensures r.performingReverseGeocoding == s.performingReverseGeocoding && r.lookupsInFlight == s.lookupsInFlight
    ensures (auth == NotDetermined || auth == Denied || auth == Restricted) ==> r == s
    ensures (auth == AuthorizedAlways || auth == AuthorizedWhenInUse) && s.updatingLocation ==>
      !r.updatingLocation && r.location == s.location
    ensures (auth == AuthorizedAlways || auth == AuthorizedWhenInUse) && !s.updatingLocation ==>
      r.location.None? && r.placemark.None? && r.updatingLocation == servicesEnabled
  {
    if auth == NotDetermined || auth == Denied || auth == Restricted then s
    else if s.updatingLocation then Stop(s)
    else Start(s.(location := None, lastLocationError := None, placemark := None, lastGeocodingError := None),
               servicesEnabled)
  }

  /** The new state after a sample, and the sample sent to the geocoder, if any. */
  datatype SampleResult = SampleResult(next: Session, lookup: Option<Fix>)

  /** `locationManager(_:didUpdateLocations:)` with `sample` as the last location delivered. */
  function OnSample(s: Session, sample: Fix, now: real, distanceToBest: real): (r: SampleResult)
    ensures !Accepted(sample, now) ==> r == SampleResult(s, None)
    ensures r.lookup.Some? ==> r.lookup.value == sample && r.next.performingReverseGeocoding
    ensures r.next.placemark == s.placemark && r.next.lastGeocodingError == s.lastGeocodingError
    ensures Accepted(sample, now) && MeetsDesiredAccuracy(sample) ==> !r.next.updatingLocation
  {
    if !IsRecent(sample, now) || !IsValidReading(sample) then SampleResult(s, None)
    else
      var distance := DistanceMoved(s.location, distanceToBest);
      var s1 := if Improves(s.location, sample)
                then s.(lastLocationError := None, location := Some(sample))
                else s;
      var s2 := if !MeetsDesiredAccuracy(sample) then s1
                else if distance > 0.0 then Stop(s1).(performingReverseGeocoding := false)
                else Stop(s1);
      if !s2.performingReverseGeocoding then
        SampleResult(s2.(performingReverseGeocoding := true, lookupsInFlight := s2.lookupsInFlight + 1), Some(sample))
      else if distance < StallDistance && sample.timestamp - s2.location.value.timestamp > StallInterval then
        SampleResult(Stop(s2), None)
      else
        SampleResult(s2, None)
  }

  /** `locationManager(_:didFailWithError:)`: only the code is compared with `locationUnknown`. */
  function OnProviderError(s: Session, error: NSError): (r: Session)
    ensures error.code == LocationUnknownCode ==> r == s
    ensures error.code != LocationUnknownCode ==> r.lastLocationError == Some(error) && !r.updatingLocation
    ensures r.location == s.location && r.placemark == s.placemark
  {
    if error.code == LocationUnknownCode then s
    else Stop(s.(lastLocationError := Some(error)))
  }

  /** `didTimeOut`: the one-shot timer has fired; without a fix updating stops with the timeout error. */
  function OnTimeout(s: Session): (r: Session)
    ensures !r.timerScheduled && r.location == s.location && r.placemark == s.placemark
    ensures s.location.None? ==> !r.updatingLocation && r.lastLocationError == Some(TimeoutError)
    ensures s.location.Some? ==> r.updatingLocation == s.updatingLocation && r.lastLocationError == s.lastLocationError
  {
    var fired := s.(timerScheduled := false);
    if s.location.None? then Stop(fired).(lastLocationError := Some(TimeoutError)) else fired
  }

  /** The new state after a geocode completion, and whether the sound played. */
  datatype GeocodeResult = GeocodeResult(next: Session, playSound: bool)

  /** The reverse-geocode completion closure. */
  function OnGeocodeCompleted(s: Session, error: Option<NSError>, placemarks: Option<seq<Placemark>>): (r: GeocodeResult)
    requires s.lookupsInFlight > 0
    ensures !r.next.performingReverseGeocoding && r.next.lookupsInFlight == s.lookupsInFlight - 1
    ensures r.next.lastGeocodingError == error
    ensures r.playSound ==> r.next.placemark.Some? && s.placemark.None? && error.None?
    ensures r.next.location == s.location && r.next.updatingLocation == s.updatingLocation
  {
    var found := error.None? && placemarks.Some? && |placemarks.value| > 0;
    var next := s.(lastGeocodingError := error,
                   placemark := if found then Some(placemarks.value[|placemarks.value| - 1]) else None,
                   performingReverseGeocoding := false,
                   lookupsInFlight := s.lookupsInFlight - 1);
    GeocodeResult(next, found && s.placemark.None?)
  }

  // ---------------------------------------------------------------- labels

  /** Line 1 of the address label: the house number, then the street after a space. */
  function Line1(p: Placemark): string
  {
    AddText(AddText("", p.subThoroughfare, ""), p.thoroughfare, " ")
  }

  /** Line 2: the city, then the state and the postal code, each after a space. */
  function Line2(p: Placemark): string
  {
    AddText(AddText(AddText("", p.locality, ""), p.administrativeArea, " "), p.postalCode, " ")
  }

  /** The address text of this screen: line 2 is added to line 1 after a line break. */
  function Address(p: Placemark): string
  {
    AddText(Line1(p), Some(Line2(p)), "\n")
  }

  /** `string(from:)`, built by successive `add` calls as the screen does. */
  method AddressText(p: Placemark) returns (r: string)
    ensures r == Address(p)
  {
    var line1 := "";
    line1 := Add(line1, p.subThoroughfare);
    line1 := Add(line1, p.thoroughfare, " ");
    var line2 := "";
    line2 := Add(line2, p.locality);
    line2 := Add(line2, p.administrativeArea, " ");
    line2 := Add(line2, p.postalCode, " ");
    line1 := Add(line1, Some(line2), "\n");
    r := line1;
  }

  /** Each line is the reference join of its fields. */
  lemma LinesAreJoins(p: Placemark)
    ensures Line1(p) == Joined([Part("", p.subThoroughfare), Part(" ", p.thoroughfare)])
    ensures Line2(p) == Joined([Part("", p.locality), Part(" ", p.administrativeArea), Part(" ", p.postalCode)])
  {
    var a, b := Part("", p.subThoroughfare), Part(" ", p.thoroughfare);
    AddAllSnoc("", [], a);
    AddAllSnoc("", [a], b);
    assert [a] + [b] == [a, b];
    AddAllJoins([a, b]);
    var c, d, e := Part("", p.locality), Part(" ", p.administrativeArea), Part(" ", p.postalCode);
    AddAllSnoc("", [], c);
    AddAllSnoc("", [c], d);
    AddAllSnoc("", [c, d], e);
    assert [c] + [d] == [c, d] && [c, d] + [e] == [c, d, e];
    AddAllJoins([c, d, e]);
  }

  /** With every field present: "house street", a line break, "city state zip". */
  lemma AddressAllFields(sub: string, street: string, city: string, state: string, zip: string, country: string)
    requires sub != "" && city != ""
    ensures Address(FullPlacemark(sub, street, city, state, zip, country))
         == sub + " " + street + "\n" + city + " " + state + " " + zip
  {
    var p := FullPlacemark(sub, street, city, state, zip, country);
    assert Line1(p) == sub + " " + street;
    assert Line2(p) == city + " " + state + " " + zip;
  }

  /** Line 2 is added even when empty, so a street without a city ends in a line break. */
  lemma AddressTrailingLineBreak(p: Placemark)
    requires Line1(p) != "" && Line2(p) == ""
    ensures Address(p) == Line1(p) + "\n"
  {
  }

  /** Without house number and street the address is line 2 alone, with no leading break. */
  lemma AddressWithoutStreet(p: Placemark)
    requires p.subThoroughfare.None? && p.thoroughfare.None?
    ensures Address(p) == Line2(p)
  {
  }

  /** What `updateLabels` puts on screen; the coordinates stand for their "%.8f" text. */
  datatype Screen = Screen(
    coordinates: Option<Coordinate>,
    message: string,
    address: string,
    tagButtonHidden: bool,
    showLogo: bool)

  const DeniedMessage := "Location Services Disabled. Please enable Location Services in Settings"
  const ErrorMessage := "Error Getting Location"
  const DisabledMessage := "Location Services Disabled"
  const SearchingMessage := "Searching..."

  /** The status line shown while there is no fix. */
  function StatusMessage(s: Session, servicesEnabled: bool): string
  {
    if s.lastLocationError.Some? then
      if s.lastLocationError.value.domain == CLErrorDomain && s.lastLocationError.value.code == DeniedCode
      then DeniedMessage
      else ErrorMessage
    else if !servicesEnabled then DisabledMessage
    else if s.updatingLocation then SearchingMessage
    else ""
  }

  /** The address line shown once there is a fix. */
  function AddressLabel(s: Session): string
  {
    if s.placemark.Some? then Address(s.placemark.value)
    else if s.performingReverseGeocoding then "Searching for Address"
    else if s.lastGeocodingError.Some? then "Error Finding Address"
    else "No Address Found"
  }

  /** `updateLabels`; `servicesEnabled` is `CLLocationManager.locationServicesEnabled()`. */
  function Labels(s: Session, servicesEnabled: bool): (r: Screen)
    ensures r.coordinates.Some? <==> s.location.Some?
    ensures r.tagButtonHidden <==> s.location.None?
    ensures r.showLogo ==> s.location.None? && r.message == "" && r.address == ""
    ensures s.location.Some? ==> r.message == ""
    ensures s.location.Some? && s.placemark.None? ==> r.address != ""
  {
    if s.location.Some? then
      Screen(Some(s.location.value.coordinate), "", AddressLabel(s), false, false)
    else
      var status := StatusMessage(s, servicesEnabled);
      Screen(None, status, "", true, s.lastLocationError.None? && servicesEnabled && !s.updatingLocation)
  }

  // ---------------------------------------------------------------- the controller object

  /** `CurrentLocationViewController` with its state fields; each method is one event. */
  class Controller {
    var location: Option<Fix>
    var lastLocationError: Option<NSError>
    var updatingLocation: bool
    var placemark: Option<Placemark>
    var lastGeocodingError: Option<NSError>
    var performingReverseGeocoding: bool
    var timerScheduled: bool
    var lookupsInFlight: nat

    function State(): Session
      reads this
    {
      Session(location, lastLocationError, updatingLocation, placemark,
              lastGeocodingError, performingReverseGeocoding, timerScheduled, lookupsInFlight)
    }

    ghost predicate Valid()
      reads this
    {
      Consistent(State())
    }

    constructor ()
      ensures Valid() && State() == Initial
    {
      location, lastLocationError, updatingLocation := None, None, false;
      placemark, lastGeocodingError, performingReverseGeocoding := None, None, false;
      timerScheduled, lookupsInFlight := false, 0;
    }

    method StartLocationManager(servicesEnabled: bool)
      requires Valid()
      modifies this
      ensures Valid() && State() == Start(old(State()), servicesEnabled)
    {
      if servicesEnabled {
        updatingLocation := true;
        timerScheduled := true;
      }
    }

    method StopLocationManager()
      requires Valid()
      modifies this
      ensures Valid() && State() == Stop(old(State()))
    {
      if updatingLocation {
        updatingLocation := false;
        timerScheduled := false;
      }
    }

    /** The button; an undetermined, denied or restricted authorisation changes nothing. */
    method GetLocation(auth: AuthorizationStatus, servicesEnabled: bool)
      requires Valid()
      modifies this
      ensures Valid() && State() == OnGetLocation(old(State()), auth, servicesEnabled)
    {
      if auth == NotDetermined {
        return;
      }
      if auth == Denied || auth == Restricted {
        return;
      }
      if updatingLocation {
        StopLocationManager();
      } else {
        location := None;
        lastLocationError := None;
        placemark := None;
        lastGeocodingError := None;
        StartLocationManager(servicesEnabled);
      }
    }

    /** The timer fired; samples and the timer only reach the controller while it updates. */
    method DidTimeOut()
      requires Valid() && timerScheduled
      modifies this
      ensures Valid() && State() == OnTimeout(old(State()))
    {
      timerScheduled := false;
      if location == None {
        StopLocationManager();
        lastLocationError := Some(TimeoutError);
      }
    }

    method DidFailWithError(error: NSError)
      requires Valid() && updatingLocation
      modifies this
      ensures Valid() && State() == OnProviderError(old(State()), error)
    {
      if error.code == LocationUnknownCode {
        return;
      }
      lastLocationError := Some(error);
      StopLocationManager();
    }

    /**
     * A sample arrives at time `now`; `distanceToBest` is its distance from the best fix
     * (`distance(from:)`), read only when there is one. Returns the sample handed to the
     * geocoder, if one was started.
     */
    method DidUpdateLocations(sample: Fix, now: real, distanceToBest: real) returns (lookup: Option<Fix>)
      requires Valid() && updatingLocation && distanceToBest >= 0.0
      modifies this
      ensures Valid()
      ensures State() == OnSample(old(State()), sample, now, distanceToBest).next
      ensures lookup == OnSample(old(State()), sample, now, distanceToBest).lookup
    {
      lookup := None;
      if sample.timestamp - now < -MaxSampleAge {
        return;
      }
      if sample.horizontalAccuracy < 0.0 {
        return;
      }
      var distance := GreatestFiniteMagnitude;
      if location.Some? {
        distance := distanceToBest;
      }
      if location == None || location.value.horizontalAccuracy > sample.horizontalAccuracy {
        lastLocationError := None;
        location := Some(sample);
      }
      if sample.horizontalAccuracy <= DesiredAccuracy {
        StopLocationManager();
        if distance > 0.0 {
          performingReverseGeocoding := false;
        }
      }
      if !performingReverseGeocoding {
        performingReverseGeocoding := true;
        lookupsInFlight := lookupsInFlight + 1;
        lookup := Some(sample);
      } else if distance < StallDistance {
        var timeInterval := sample.timestamp - location.value.timestamp;
        if timeInterval > StallInterval {
          StopLocationManager();
        }
      }
    }

    /** A reverse-geocode request completes; returns whether the sound played. */
    method GeocodeCompleted(error: Option<NSError>, placemarks: Option<seq<Placemark>>) returns (playSound: bool)
      requires Valid() && lookupsInFlight > 0
      modifies this
      ensures Valid()
      ensures State() == OnGeocodeCompleted(old(State()), error, placemarks).next
      ensures playSound == OnGeocodeCompleted(old(State()), error, placemarks).playSound
    {
      lastGeocodingError := error;
      playSound := false;
      if error == None && placemarks.Some? && |placemarks.value| > 0 {
        if placemark == None {
          playSound := true;
        }
        placemark := Some(placemarks.value[|placemarks.value| - 1]);
      } else {
        placemark := None;
      }
      performingReverseGeocoding := false;
      lookupsInFlight := lookupsInFlight - 1;
    }
  }
}
