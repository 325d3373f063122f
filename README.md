# MyLocations — a verified model of its core

MyLocations is an iOS app that finds the device's position, reverse-geocodes it into a street
address and lets the user tag, describe and photograph locations, list them and see them on a
map. This project models in Dafny the logic at the heart of the app:

- **the acquisition controller** of the Current Location screen. This is the state machine that
  reacts to the Get My Location button, location samples, provider errors, the 60-second
  timeout and reverse-geocode completions. It also covers the screen's label precedence and its
  two-line address text. Each event is a pure step function on a `Session` value
  (`CurrentLocation.OnSample` and so on). The class `CurrentLocation.Controller` carries the
  events out in place, one method per event, and each method is proved to produce the step
  function's state. `AcquisitionProperties` states each rule on its own;
  `AcquisitionRuns` follows sequences of events and a few concrete scenarios.
- **the string joiner** `add(text:separatedBy:)` (`StringAddText`). Every address formatter
  is a chain of its calls, proved equal to a reference join (`Joined`).
- **the address formatters** of the details screen, the list cell and the current-location
  screen, plus the editor rules of the details screen: row selection, copying in a location to
  edit, and saving in `done()` with the photo-ID decision (`LocationDetails`, `LocationCell`).
- **the location record** (`LocationRecord`): derived properties, the photo file name and the
  persistent photo-ID counter.
- **the category picker** (`CategoryPicker`): the search with early exit and the single
  checkmark over eleven fixed names.
- **the map region fit** (`MapRegion`): the bounding-box fold over annotation coordinates,
  its midpoint and its padded span. All arithmetic is on exact reals.

Platform values are inputs: the sample's timestamp, "now", the horizontal accuracy, the
distance to the best fix, whether location services are on, the authorisation status, the
geocoder's placemarks and error, and the loaded photo image. The geocoder's asynchronous reply
is a separate event that arrives later. `lookupsInFlight` counts the replies still owed: the
app can have two lookups running at once (`AcquisitionRuns.TwoLookupsInFlight`). Samples and
provider errors reach the controller only while it is updating, because stopping detaches the
delegate. The timer only fires while scheduled.

Three facts about the code that its own comments suggest otherwise:

- A converging fix can start a second geocode while one is still running
  (MyLocations/Controller/CurrentLocationViewController.swift:374-381 and :399-404), although the
  comment at :385 says the app performs one geocode request at a time
  (`AcquisitionRuns.TwoLookupsInFlight`).
- Neither the button (:108-117) nor the completion closure (:404-422) checks whether a reply
  belongs to the current search. A reply that arrives after a stop and restart still sets its
  placemark, and the busy flag it leaves raised blocks the first lookup of the new search
  (`AcquisitionRuns.StaleReplyAfterRestart`).
- The comment at :299 says the timeout stops the location manager. The code at :305 stops it
  only when there is no fix yet; after a fix the timeout changes nothing.

## Model

| member | source | states |
|---|---|---|
| StringAddText.AddTextShape | MyLocations/Controller/String+AddText.swift:14-22 | the old string is a prefix of the result; a nil text leaves it unchanged; a present text ends the result, and the length grows by the text plus the separator only when the string was non-empty |
| StringAddText.Add | MyLocations/Controller/String+AddText.swift:14-22 | the mutating append: nil changes nothing, a text added to "" is exactly that text, a text added to a non-empty string gives old + separator + text |
| StringAddText.DefaultSeparatorConcatenates | MyLocations/Controller/String+AddText.swift:15 | with the default separator "" a present text is plain concatenation |
| StringAddText.EmptyTextAppendsSeparator | MyLocations/Controller/String+AddText.swift:17-19 | an empty but present text added to a non-empty string still appends the separator |
| StringAddText.AddAllSnoc | MyLocations/Controller/String+AddText.swift:17-20 | a chain of `add` calls followed by one more equals that call applied to the chain's result |
| StringAddText.AddTextAfterNonEmpty | MyLocations/Controller/String+AddText.swift:17-20 | a call on a non-empty string appends separator and text, or nothing when the text is nil |
| StringAddText.AddAllFromNonEmpty | MyLocations/Controller/String+AddText.swift:17-20 | once the string is non-empty every later present text comes after its own separator |
| StringAddText.AddAllJoins | MyLocations/Controller/String+AddText.swift:14-22 | successive `add` calls on "" build exactly the reference join: present parts in order, no separator before the first non-empty one |
| StringAddText.JoinedEmptyIff | MyLocations/Controller/String+AddText.swift:16-20 | a chain of `add` calls gives "" exactly when every present text is empty |
| StringAddText.TailSkipsAbsent | MyLocations/Controller/String+AddText.swift:16 | dropping an absent part from anywhere in a run after a non-empty string leaves the result unchanged |
| StringAddText.JoinedSkipsAbsent | MyLocations/Controller/String+AddText.swift:16 | dropping an absent part from anywhere in the chain of `add` calls leaves the joined text unchanged |
| StringAddText.JoinedIgnoresFirstSeparator | MyLocations/Controller/String+AddText.swift:17-18 | the separator of the call made on an empty string is never used |
| CurrentLocation.OnGetLocation | MyLocations/Controller/CurrentLocationViewController.swift:91-120 | the button: unauthorised changes nothing; while updating it stops, keeping the fix; otherwise it forgets fix and placemark and updates exactly when services are on; the geocoder state is never touched |
| CurrentLocation.OnSample | MyLocations/Controller/CurrentLocationViewController.swift:350-433 | a rejected sample changes nothing; a lookup, when started, is for this sample and raises the busy flag; a sample within 10 m stops updating; placemark and geocoding error are untouched |
| CurrentLocation.OnProviderError | MyLocations/Controller/CurrentLocationViewController.swift:325-337 | `locationUnknown` changes nothing; any other error is stored and updating stops; fix and placemark are kept |
| CurrentLocation.OnTimeout | MyLocations/Controller/CurrentLocationViewController.swift:302-314 | the timer is gone; with no fix updating stops with the timeout error; with a fix updating and the error stay as they were |
| CurrentLocation.OnGeocodeCompleted | MyLocations/Controller/CurrentLocationViewController.swift:404-422 | lowers the busy flag, retires one request and stores the error; the sound plays only for a success that found no placemark; fix and updating are untouched |
| CurrentLocation.Labels | MyLocations/Controller/CurrentLocationViewController.swift:135-183 | coordinates are shown and the Tag button is visible exactly when there is a fix; with a fix the message is empty and, without a placemark, the address line is never empty; the logo shows only without a fix and with empty labels |
| CurrentLocation.Controller.constructor | MyLocations/Controller/CurrentLocationViewController.swift:30-39 | the screen starts idle: no fix, no placemark, no errors, not updating, no timer, no lookup |
| CurrentLocation.Controller.GetLocation | MyLocations/Controller/CurrentLocationViewController.swift:91-120 | the button event in place; the new state is `OnGetLocation` of the old one and the invariant holds |
| CurrentLocation.Controller.StartLocationManager | MyLocations/Controller/CurrentLocationViewController.swift:249-257 | with services on, updating starts and the timer is scheduled; otherwise nothing changes |
| CurrentLocation.Controller.StopLocationManager | MyLocations/Controller/CurrentLocationViewController.swift:262-272 | only while updating: stops and invalidates the timer |
| CurrentLocation.Controller.DidTimeOut | MyLocations/Controller/CurrentLocationViewController.swift:302-314 | the timer event in place, equal to `OnTimeout` |
| CurrentLocation.Controller.DidFailWithError | MyLocations/Controller/CurrentLocationViewController.swift:325-337 | the provider error event in place, equal to `OnProviderError` |
| CurrentLocation.Controller.DidUpdateLocations | MyLocations/Controller/CurrentLocationViewController.swift:350-433 | the sample event in place: new state and the sample sent to the geocoder are those of `OnSample` |
| CurrentLocation.Controller.GeocodeCompleted | MyLocations/Controller/CurrentLocationViewController.swift:404-422 | the completion closure in place: new state and sound equal `OnGeocodeCompleted` |
| CurrentLocation.AddressText | MyLocations/Controller/CurrentLocationViewController.swift:439-452 | `string(from:)` built by successive appends equals `Address`: line 1, then line 2 after a line break |
| CurrentLocation.LinesAreJoins | MyLocations/Controller/CurrentLocationViewController.swift:440-448 | line 1 is the join of house number and street, line 2 the join of city, state and postal code, each later field after a space |
| CurrentLocation.AddressAllFields | MyLocations/Controller/CurrentLocationViewController.swift:439-452 | with every field: "house street", a line break, "city state zip"; the country is not shown |
| CurrentLocation.AddressTrailingLineBreak | MyLocations/Controller/CurrentLocationViewController.swift:450 | line 2 is appended even when empty, so a lone street ends with a line break |
| CurrentLocation.AddressWithoutStreet | MyLocations/Controller/CurrentLocationViewController.swift:440-450 | without house number and street the address is line 2 alone, with no leading break |
| AcquisitionProperties.IgnoredSampleChangesNothing | MyLocations/Controller/CurrentLocationViewController.swift:354-360 | a sample older than 5 s or with negative accuracy changes no state and starts no lookup |
| AcquisitionProperties.FilterBoundaries | MyLocations/Controller/CurrentLocationViewController.swift:354-360 | the filter is strict: exactly 5 s old and accuracy 0 pass, 6 s old or accuracy -1 do not |
| AcquisitionProperties.BestFixReplacement | MyLocations/Controller/CurrentLocationViewController.swift:362-372 | the best fix is replaced exactly when an accepted sample finds none or is strictly more accurate, and replacing clears the location error |
| AcquisitionProperties.BestAccuracyNeverIncreases | MyLocations/Controller/CurrentLocationViewController.swift:367-372 | after a sample the best fix is still there and no less accurate |
| AcquisitionProperties.ConvergenceStops | MyLocations/Controller/CurrentLocationViewController.swift:374-382 | an accepted sample within 10 m stops updating and the timer whether or not it became the best fix; if it moved, it is geocoded |
| AcquisitionProperties.LookupOnlyWhenIdle | MyLocations/Controller/CurrentLocationViewController.swift:399-404 | a lookup starts exactly when the busy flag is down at that point; starting raises it and adds one request; a sample arriving while busy is not queued |
| AcquisitionProperties.StallRule | MyLocations/Controller/CurrentLocationViewController.swift:424-431 | a not-yet-accurate sample stops updating exactly when a lookup is busy, it is under 1 m from the best fix and more than 10 s newer than it |
| AcquisitionProperties.NoStallOnNewBest | MyLocations/Controller/CurrentLocationViewController.swift:425-426 | a sample that just became the best fix is 0 s from it, so the stall rule never stops on it |
| AcquisitionProperties.GeocodeCompletion | MyLocations/Controller/CurrentLocationViewController.swift:404-422 | completion lowers the busy flag and stores the error; success keeps the last placemark, failure clears it; the sound plays exactly for a success that found no placemark; nothing else changes |
| AcquisitionProperties.TimeoutRule | MyLocations/Controller/CurrentLocationViewController.swift:302-314 | with no fix a timeout stops updating with error domain "MyLocationsErrorDomain" code 1; after a fix it only retires the timer |
| AcquisitionProperties.ProviderErrorRule | MyLocations/Controller/CurrentLocationViewController.swift:325-337 | a `locationUnknown` code is ignored; any other error is stored and stops updating |
| AcquisitionProperties.StopIdempotent | MyLocations/Controller/CurrentLocationViewController.swift:262-272 | stopping twice is stopping once; stopping when not updating changes nothing |
| AcquisitionProperties.GetLocationRule | MyLocations/Controller/CurrentLocationViewController.swift:91-120 | unauthorised: no change; updating: stop; otherwise forget fix, placemark and both errors and start when services are on |
| AcquisitionProperties.EventsKeepConsistent | MyLocations/Controller/CurrentLocationViewController.swift:91-433 | every event keeps the invariant: a timer only while updating, busy only with a request in flight, the best fix's accuracy non-negative |
| AcquisitionProperties.TimeoutMessage | MyLocations/Controller/CurrentLocationViewController.swift:163-168 | the timeout error shows "Error Getting Location", because its domain is not the location domain |
| AcquisitionProperties.DeniedMessageShown | MyLocations/Controller/CurrentLocationViewController.swift:163-166 | a provider `denied` error shows the Location Services hint |
| AcquisitionProperties.AddressPrecedence | MyLocations/Controller/CurrentLocationViewController.swift:136-154 | with a fix: coordinates shown, Tag button visible, address from placemark, else "Searching for Address", else "Error Finding Address", else "No Address Found" |
| AcquisitionProperties.StatusPrecedence | MyLocations/Controller/CurrentLocationViewController.swift:155-182 | without a fix: a stored error wins, then disabled services, then "Searching..."; the logo shows exactly when none applies |
| AcquisitionRuns.StepKeepsConsistent | MyLocations/Controller/CurrentLocationViewController.swift:91-433 | any event that can be delivered keeps the invariant |
| AcquisitionRuns.RunKeepsConsistent | MyLocations/Controller/CurrentLocationViewController.swift:91-433 | the invariant holds along every feasible sequence of events |
| AcquisitionRuns.BestAccuracyNonIncreasing | MyLocations/Controller/CurrentLocationViewController.swift:362-372 | without a button press, the best fix persists and its accuracy never increases along a run |
| AcquisitionRuns.TwoLookupsInFlight | MyLocations/Controller/CurrentLocationViewController.swift:374-404 | a coarse fix then a converging fix that moved start two lookups, both in flight |
| AcquisitionRuns.StaleReplyAfterRestart | MyLocations/Controller/CurrentLocationViewController.swift:108-117 | after stop and restart the old reply still sets the placemark, and the surviving busy flag blocks the new first sample's lookup |
| AcquisitionRuns.StallScenario | MyLocations/Controller/CurrentLocationViewController.swift:424-431 | 50 m fixes at 0 s, 5 s and 11 s close by: only the third stops updating |
| AcquisitionRuns.ConvergenceScenario | MyLocations/Controller/CurrentLocationViewController.swift:374-382 | an 8 m fix stops updating and the timer and is kept |
| AcquisitionRuns.TimeoutScenario | MyLocations/Controller/CurrentLocationViewController.swift:302-314 | no fix before the timer fires: updating stops and "Error Getting Location" is shown |
| LocationDetails.AddressText | MyLocations/Controller/LocationDetailsViewController.swift:118-128 | the six `add` calls build the address with the written separators |
| LocationDetails.AddressIsJoin | MyLocations/Controller/LocationDetailsViewController.swift:120-127 | the address is the reference join of the six fields with their separators, for the written and the intended street separator |
| LocationDetails.AllFieldsWith | MyLocations/Controller/LocationDetailsViewController.swift:120-127 | with every field present the address is "house", the street separator, "street, city, state zip, country" |
| LocationDetails.AddressAllFields | MyLocations/Controller/LocationDetailsViewController.swift:120-127 | with every field: "house, street, city, state zip, country" |
| LocationDetails.AddressOnlyCountry | MyLocations/Controller/LocationDetailsViewController.swift:120-127 | absent fields contribute nothing: a lone country is the whole address |
| LocationDetails.AddressNoFields | MyLocations/Controller/LocationDetailsViewController.swift:120-127 | a placemark without fields gives "" |
| LocationDetails.HouseNumberSeparatedByComma | MyLocations/Controller/LocationDetailsViewController.swift:121-122 | for "1" on "Infinite Loop" the written text starts "1, " where the intended one starts "1 I" |
| LocationDetails.IntendedAddressAllFields | MyLocations/Controller/LocationDetailsViewController.swift:120-127 | the corrected formatter gives "house street, city, state zip, country" |
| LocationDetails.IntendedDiffersOnlyThere | MyLocations/Controller/LocationDetailsViewController.swift:121-122 | without both a house number and a street the corrected and written texts agree |
| LocationDetails.WillSelectRow | MyLocations/Controller/LocationDetailsViewController.swift:228-234 | the index path comes back exactly for sections 0 and 1, nil for every other section |
| LocationDetails.Editor.constructor | MyLocations/Controller/LocationDetailsViewController.swift:32-64 | a new editor has no description, "No Category", the current date and nothing to edit |
| LocationDetails.Editor.SetLocationToEdit | MyLocations/Controller/LocationDetailsViewController.swift:52-62 | a location is copied in field by field; nil copies nothing |
| LocationDetails.Editor.Done | MyLocations/Controller/LocationDetailsViewController.swift:260-294 | reuses the edited location ("Updated") or a fresh one with no photo ID ("Tagged"), writes every field; with an image, a location without a photo draws the next ID and one with a photo keeps it |
| LocationCell.ThumbnailFor | MyLocations/Controller/LocationCell.swift:68-78 | the stored photo exactly when the location has one and it loads, else the "No Photo" asset |
| LocationCell.Configure | MyLocations/Controller/LocationCell.swift:47-65 | description is the title, address is the short address when there is a placemark and the coordinates otherwise, thumbnail as above |
| LocationCell.CellAddressIsJoin | MyLocations/Controller/LocationCell.swift:55-59 | the short address is the reference join of house number, street after " " and city after ", " |
| LocationCell.CellAddressAllFields | MyLocations/Controller/LocationCell.swift:55-59 | with all three fields: "house street, city" |
| LocationCell.CellAddressNoHouseNumber | MyLocations/Controller/LocationCell.swift:55-58 | with no house number there is no leading separator before the street |
| LocationCell.CellAddressIgnoresRest | MyLocations/Controller/LocationCell.swift:55-59 | only house number, street and city matter |
| LocationRecord.Location.constructor | MyLocations/Model/Location+CoreDataProperties.swift:24-32 | a record with the declared fields; the initial values (zero coordinates, empty texts, no placemark, no photo) are this model's own choice, and `Done` overwrites all but the photo ID |
| LocationRecord.Location.Coordinate | MyLocations/Model/Location+CoreDataClass.swift:19-21 | the coordinate is (latitude, longitude) |
| LocationRecord.Location.Title | MyLocations/Model/Location+CoreDataClass.swift:23-29 | "(No Description)" for an empty description, else the description; never empty |
| LocationRecord.Location.Subtitle | MyLocations/Model/Location+CoreDataClass.swift:31-33 | the subtitle is the category |
| LocationRecord.Location.HasPhoto | MyLocations/Model/Location+CoreDataClass.swift:36-38 | true exactly when there is a photo ID |
| LocationRecord.Location.PhotoFile | MyLocations/Model/Location+CoreDataClass.swift:41-48 | needs a photo ID; the name is "Photo-" + decimal ID + ".jpg" |
| LocationRecord.Location.RemovePhotoFile | MyLocations/Model/Location+CoreDataClass.swift:72-80 | removes the photo file only when the location has a photo; otherwise the files are unchanged |
| LocationRecord.Documents.constructor | MyLocations/Model/Location+CoreDataClass.swift:72-80 | the documents directory holds the given files |
| LocationRecord.PhotoIdCounter.constructor | MyLocations/Model/Location+CoreDataClass.swift:60 | a never-set counter reads 0 |
| LocationRecord.PhotoIdCounter.NextPhotoID | MyLocations/Model/Location+CoreDataClass.swift:57-69 | returns the stored counter and stores it plus one |
| LocationRecord.TwoPhotoIds | MyLocations/Model/Location+CoreDataClass.swift:57-69 | two successive IDs are consecutive and name different files |
| LocationRecord.DigitChar | MyLocations/Model/Location+CoreDataClass.swift:47 | each digit value has its decimal character |
| LocationRecord.Decimal | MyLocations/Model/Location+CoreDataClass.swift:47 | the decimal text of a number is non-empty and all digits |
| LocationRecord.DecimalRoundTrip | MyLocations/Model/Location+CoreDataClass.swift:47 | reading the decimal text back gives the number |
| LocationRecord.DecimalInjective | MyLocations/Model/Location+CoreDataClass.swift:47 | different numbers have different decimal texts |
| LocationRecord.IntTextInjective | MyLocations/Model/Location+CoreDataClass.swift:47 | different integers, negative ones included, have different texts |
| LocationRecord.PhotoFilenameInjective | MyLocations/Model/Location+CoreDataClass.swift:47 | different photo IDs give different file names |
| CategoryPicker.CategoriesDistinct | MyLocations/Controller/CategoryPickerViewController.swift:16 | eleven category names, no two alike |
| CategoryPicker.FirstMatch | MyLocations/Controller/CategoryPickerViewController.swift:26-31 | the loop with `break` finds the first index holding the name, or reports that none does |
| CategoryPicker.NumberOfRows | MyLocations/Controller/CategoryPickerViewController.swift:48-50 | one row per category, eleven |
| CategoryPicker.IsChecked | MyLocations/Controller/CategoryPickerViewController.swift:58-62 | a checked row holds the selected name and no other row does; an unlisted name checks no row |
| CategoryPicker.AtMostOneChecked | MyLocations/Controller/CategoryPickerViewController.swift:58-62 | the names are distinct, so at most one row carries the checkmark |
| CategoryPicker.Picker.constructor | MyLocations/Controller/CategoryPickerViewController.swift:14-18 | the picker holds the name it was given and an empty selection |
| CategoryPicker.Picker.ViewDidLoad | MyLocations/Controller/CategoryPickerViewController.swift:23-32 | a listed name selects its row in section 0; an unlisted one leaves the selection empty |
| CategoryPicker.Picker.DidSelectRow | MyLocations/Controller/CategoryPickerViewController.swift:69-79 | a different row becomes the selection; tapping the selected row changes nothing |
| CategoryPicker.Picker.PrepareForPickedCategory | MyLocations/Controller/CategoryPickerViewController.swift:36-43 | the tapped cell's category becomes the selected name |
| MapRegion.Widen | MyLocations/Controller/MapViewController.swift:73-76 | one loop pass grows the box to contain the annotation and never shrinks it |
| MapRegion.FitRegion | MyLocations/Controller/MapViewController.swift:59-91 | no annotation: 1000 m around the user; one: 1000 m around it; more: a centre-and-span region whose box contains every annotation |
| MapRegion.RegionFor | MyLocations/Controller/MapViewController.swift:59-91 | the three cases and the `for` loop compute exactly `FitRegion` |
| MapRegion.FoldContainsAll | MyLocations/Controller/MapViewController.swift:72-77 | every annotation lies inside the folded box |
| MapRegion.FoldAttained | MyLocations/Controller/MapViewController.swift:69-77 | for in-range coordinates each corner value is some annotation's, so the box is the true extremes |
| MapRegion.NonEmptyBoxIsOrdered | MyLocations/Controller/MapViewController.swift:69-77 | after one annotation the box is no longer inside out |
| MapRegion.CenterIsMidpoint | MyLocations/Controller/MapViewController.swift:79-80 | the centre is the midpoint of the box on each axis and lies inside it |
| MapRegion.SpanCoversBox | MyLocations/Controller/MapViewController.swift:81-84 | each span is the box extent times 1.1, hence non-negative and no smaller than the extent |
| MapRegion.TwoPointsOnEquator | MyLocations/Controller/MapViewController.swift:69-86 | points at longitude 0 and 2 give centre (0, 1) and span (0, 2.2) |
| MapRegion.MapController.constructor | MyLocations/Controller/MapViewController.swift:29 | no locations and no region yet |
| MapRegion.MapController.ShowUser | MyLocations/Controller/MapViewController.swift:31-34 | shows a 1000 m by 1000 m region around the user |
| MapRegion.MapController.ShowLocations | MyLocations/Controller/MapViewController.swift:38-41 | shows the region that fits all locations |
| MapRegion.MapController.ViewDidLoad | MyLocations/Controller/MapViewController.swift:16-23 | replaces the locations with the fetched ones and shows them only when there are any |

## Left out

- Authorisation requests and the "Location Services Disabled" alert: the authorisation status is an input, and an undetermined, denied or restricted status changes nothing in the model.
- CoreLocation, the geocoder, `Timer` and the sound are foreign services. Their results are inputs and their callbacks are events. The distance to the best fix is an input, and `distance(from:)` is not modelled.
- Asynchrony: each geocode completion is one event delivered between others; there are no interleavings inside an event.
- `CurrentLocation.Controller.DidUpdateLocations`: models only the last location of the delivered array (`locations.last!`). An empty array, which traps, is not modelled.
- `LocationRecord.Location.constructor`: Core Data takes a new record's initial values from the data model, which is not part of this model; the values chosen here are the model's own.
- The controller's `Double` timestamps, accuracies and distances, and the map's coordinates, are exact reals: floating-point rounding is not modelled, and `Double.greatestFiniteMagnitude` is its exact value.
- UI rendering: the logo animations, the Get button spinner, the HUD, cell colours and heights, and the image picker. The screen's label choice is modelled, its drawing is not.
- The "%.8f" coordinate text and date formatting are float and locale formatting. The model keeps the coordinate values instead.
- `MKCoordinateRegionMakeWithDistance` and `regionThatFits` are MapKit calls. The model keeps the requested region, centre and distances, and does not adjust it as `regionThatFits` would.
- `MapRegion.MapController`: annotations are kept as their coordinates, and the Core Data fetch is replaced by an input list.
- Core Data saving and fetching, the photo JPEG write, `NotificationCenter` and the `UserDefaults` store: the counter is a field, and the documents directory is a set of file names.
- `UIImage+Resize.swift`: an image is only a size. Scaling into 52 × 52 points is not modelled.
- `LocationRecord.PhotoIdCounter.NextPhotoID`: uses unbounded integers, so the 64-bit overflow of `currentID + 1` is not modelled.
- `CategoryPicker.Picker.DidSelectRow`: requires a selection, because reading the row of an empty index path traps. The checkmark updates on the visible cells are UI and are not modelled.
- `LocationDetails.Editor.Done`: saving, the HUD delay and the image file write are not modelled. The description comes from the editor's text field value.

## Findings

| source | as written | input that shows it | evidently intended | confidence | as-written member | corrected member |
|---|---|---|---|---|---|---|
| MyLocations/Controller/LocationDetailsViewController.swift:121-122 | the street is added after the house number with separator ", " | a placemark with house number "1" and street "Infinite Loop" gives "1, Infinite Loop, …" | a space, "1 Infinite Loop, …", as on the list cell, on the Current Location screen and in the screen's older hand-written version | medium, not executed | LocationDetails.HouseNumberSeparatedByComma | LocationDetails.IntendedAddressAllFields |
