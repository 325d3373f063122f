/** What each event of the acquisition controller does, stated one property at a time. */
module AcquisitionProperties {
  import opened Wrappers
  import opened Geo
  import opened CurrentLocation

  /** A cached (older than 5 s) or invalid (negative accuracy) sample changes no state at all. */
  lemma IgnoredSampleChangesNothing(s: Session, sample: Fix, now: real, distanceToBest: real)
    requires !Accepted(sample, now)
    ensures OnSample(s, sample, now, distanceToBest) == SampleResult(s, None)
  {
  }

  /** The boundaries of the filter: exactly 5 s old and accuracy exactly 0 are still accepted. */
  lemma FilterBoundaries(c: Coordinate, now: real)
    ensures Accepted(Fix(now - 5.0, 0.0, c), now)
    ensures !Accepted(Fix(now - 6.0, 0.0, c), now)
    ensures !Accepted(Fix(now, -1.0, c), now)
  {
  }

  /**
   * The best fix is replaced exactly when an accepted sample finds none or is strictly
   * more accurate; a replacement clears the location error, otherwise the error stays.
   */
  lemma BestFixReplacement(s: Session, sample: Fix, now: real, distanceToBest: real)
    ensures var r := OnSample(s, sample, now, distanceToBest).next;
      && r.location == (if Accepted(sample, now) && Improves(s.location, sample) then Some(sample) else s.location)
      && r.lastLocationError == (if Accepted(sample, now) && Improves(s.location, sample) then None else s.lastLocationError)
  {
  }

  /** So the best fix, once there, never gets less accurate. */
  lemma BestAccuracyNeverIncreases(s: Session, sample: Fix, now: real, distanceToBest: real)
    requires s.location.Some?
    ensures var r := OnSample(s, sample, now, distanceToBest).next;
      r.location.Some? && r.location.value.horizontalAccuracy <= s.location.value.horizontalAccuracy
  {
  }

  /**
   * An accepted sample within the desired 10 m stops updating, whether or not it became
   * the best fix; if it moved at all (or there was no fix) it is sent to the geocoder,
   * even while another lookup is still running.
   */
  lemma ConvergenceStops(s: Session, sample: Fix, now: real, distanceToBest: real)
    requires Accepted(sample, now) && MeetsDesiredAccuracy(sample)
    ensures var r := OnSample(s, sample, now, distanceToBest);
      && !r.next.updatingLocation
      && (s.updatingLocation ==> !r.next.timerScheduled)
      && (DistanceMoved(s.location, distanceToBest) > 0.0 ==> r.lookup == Some(sample))
  {
  }

  /**
   * A lookup starts exactly when the sample is accepted and the busy flag is down at that
   * point (it was down, or convergence with movement lowered it). Starting raises the flag
   * and adds one request; otherwise the sample is dropped, not queued.
   */
  lemma LookupOnlyWhenIdle(s: Session, sample: Fix, now: real, distanceToBest: real)
    ensures var r := OnSample(s, sample, now, distanceToBest);
      && (r.lookup.Some? <==>
            Accepted(sample, now) &&
            (!s.performingReverseGeocoding ||
             (MeetsDesiredAccuracy(sample) && DistanceMoved(s.location, distanceToBest) > 0.0)))
      && (r.lookup.Some? ==>
            r.lookup.value == sample && r.next.performingReverseGeocoding &&
            r.next.lookupsInFlight == s.lookupsInFlight + 1)
      && (r.lookup.None? ==>
            r.next.lookupsInFlight == s.lookupsInFlight &&
            r.next.performingReverseGeocoding == s.performingReverseGeocoding)
      && r.next.placemark == s.placemark
      && r.next.lastGeocodingError == s.lastGeocodingError
  {
  }

  /**
   * The stall rule: an accepted sample that is not accurate enough stops updating exactly
   * when a lookup is busy, it lies less than 1 m from the previous best fix and it is
   * more than 10 s newer than the best fix after the update.
   */
  lemma StallRule(s: Session, sample: Fix, now: real, distanceToBest: real)
    requires s.updatingLocation
    requires Accepted(sample, now) && !MeetsDesiredAccuracy(sample)
    ensures var r := OnSample(s, sample, now, distanceToBest).next;
      !r.updatingLocation <==>
        && s.performingReverseGeocoding
        && s.location.Some?
        && distanceToBest < StallDistance
        && sample.timestamp - r.location.value.timestamp > StallInterval
  {
  }

  /** A sample that became the best fix is 0 s from it, so the stall rule never stops on it. */
  lemma NoStallOnNewBest(s: Session, sample: Fix, now: real, distanceToBest: real)
    requires s.updatingLocation
    requires Accepted(sample, now) && !MeetsDesiredAccuracy(sample) && Improves(s.location, sample)
    ensures OnSample(s, sample, now, distanceToBest).next.updatingLocation
  {
  }

  /**
   * Completion always lowers the busy flag, stores the error and retires one request;
   * success keeps the last placemark, failure (an error or no placemark) clears it, and
   * the sound plays exactly for a success that found no placemark.
   */
  lemma GeocodeCompletion(s: Session, error: Option<NSError>, placemarks: Option<seq<Placemark>>)
    requires s.lookupsInFlight > 0
    ensures var g := OnGeocodeCompleted(s, error, placemarks);
      var found := error.None? && placemarks.Some? && |placemarks.value| > 0;
      && !g.next.performingReverseGeocoding
      && g.next.lastGeocodingError == error
      && g.next.lookupsInFlight == s.lookupsInFlight - 1
      && (found ==> g.next.placemark == Some(placemarks.value[|placemarks.value| - 1]))
      && (!found ==> g.next.placemark == None)
      && (g.playSound <==> found && s.placemark.None?)
      && g.next.location == s.location
      && g.next.lastLocationError == s.lastLocationError
      && g.next.updatingLocation == s.updatingLocation
      && g.next.timerScheduled == s.timerScheduled
  {
  }

  /** A timeout with no fix stops updating with the timeout error; after a fix it only retires the timer. */
  lemma TimeoutRule(s: Session)
    ensures s.location.None? ==>
      !OnTimeout(s).updatingLocation && OnTimeout(s).lastLocationError == Some(TimeoutError)
    ensures s.location.Some? ==> OnTimeout(s) == s.(timerScheduled := false)
  {
  }

  /** `locationUnknown` is ignored; any other provider error is stored and stops updating. */
  lemma ProviderErrorRule(s: Session, error: NSError)
    ensures error.code == LocationUnknownCode ==> OnProviderError(s, error) == s
    ensures error.code != LocationUnknownCode ==>
      OnProviderError(s, error).lastLocationError == Some(error) && !OnProviderError(s, error).updatingLocation
  {
  }

  /** Stopping when not updating is a no-op, so repeated stops are harmless. */
  lemma StopIdempotent(s: Session)
    ensures Stop(Stop(s)) == Stop(s)
    ensures !s.updatingLocation ==> Stop(s) == s
    ensures !Stop(s).updatingLocation
  {
  }

  predicate Authorized(auth: AuthorizationStatus)
  {
    auth == AuthorizedAlways || auth == AuthorizedWhenInUse
  }

  /**
   * The button: without authorisation nothing changes; while updating it stops; otherwise
   * it forgets the fix, the placemark and both errors and starts (if services are on).
   * The busy flag and the requests in flight are kept.
   */
  lemma GetLocationRule(s: Session, auth: AuthorizationStatus, servicesEnabled: bool)
    ensures !Authorized(auth) ==> OnGetLocation(s, auth, servicesEnabled) == s
    ensures Authorized(auth) && s.updatingLocation ==> OnGetLocation(s, auth, servicesEnabled) == Stop(s)
    ensures Authorized(auth) && !s.updatingLocation ==>
      var r := OnGetLocation(s, auth, servicesEnabled);
      && r.location.None? && r.placemark.None?
      && r.lastLocationError.None? && r.lastGeocodingError.None?
      && r.updatingLocation == servicesEnabled
      && r.timerScheduled == (servicesEnabled || s.timerScheduled)
      && r.performingReverseGeocoding == s.performingReverseGeocoding
      && r.lookupsInFlight == s.lookupsInFlight
  {
  }

  /** Every event keeps the controller's invariant. */
  lemma EventsKeepConsistent(s: Session)
    requires Consistent(s)
    ensures forall auth, on :: Consistent(OnGetLocation(s, auth, on))
    ensures forall e :: Consistent(OnProviderError(s, e))
    ensures Consistent(OnTimeout(s))
    ensures forall sample, now, d :: Consistent(OnSample(s, sample, now, d).next)
    ensures s.lookupsInFlight > 0 ==> forall e, p :: Consistent(OnGeocodeCompleted(s, e, p).next)
  {
  }

  /** The timeout error shares its code with `CLError.denied` but not its domain: the screen says "Error Getting Location". */
  lemma TimeoutMessage(s: Session, servicesEnabled: bool)
    requires s.location.None?
    ensures Labels(OnTimeout(s), servicesEnabled).message == ErrorMessage
  {
  }

  /** A provider `denied` error shows the settings hint. */
  lemma DeniedMessageShown(s: Session, servicesEnabled: bool)
    requires s.location.None? && s.updatingLocation
    ensures Labels(OnProviderError(s, NSError(CLErrorDomain, DeniedCode)), servicesEnabled).message == DeniedMessage
  {
  }

  /**
   * Once there is a fix, the address line follows the precedence placemark, then busy
   * geocoder, then geocoding error, then "No Address Found"; the message is empty and
   * the Tag button is shown.
   */
  lemma AddressPrecedence(s: Session, servicesEnabled: bool)
    requires s.location.Some?
    ensures var scr := Labels(s, servicesEnabled);
      && scr.coordinates == Some(s.location.value.coordinate)
      && scr.message == "" && !scr.tagButtonHidden && !scr.showLogo
      && (s.placemark.Some? ==> scr.address == Address(s.placemark.value))
      && (s.placemark.None? && s.performingReverseGeocoding ==> scr.address == "Searching for Address")
      && (s.placemark.None? && !s.performingReverseGeocoding && s.lastGeocodingError.Some? ==>
            scr.address == "Error Finding Address")
      && (s.placemark.None? && !s.performingReverseGeocoding && s.lastGeocodingError.None? ==>
            scr.address == "No Address Found")
  {
  }

  /**
   * Without a fix: a stored error wins over everything, then disabled services, then
   * "Searching..."; the logo shows exactly when none of them applies.
   */
  lemma StatusPrecedence(s: Session, servicesEnabled: bool)
    requires s.location.None?
    ensures var scr := Labels(s, servicesEnabled);
      && scr.coordinates.None? && scr.address == "" && scr.tagButtonHidden
      && (s.lastLocationError.Some? ==>
            scr.message == (if s.lastLocationError.value.domain == CLErrorDomain &&
                               s.lastLocationError.value.code == DeniedCode
                            then DeniedMessage else ErrorMessage))
      && (s.lastLocationError.None? && !servicesEnabled ==> scr.message == DisabledMessage)
      && (s.lastLocationError.None? && servicesEnabled && s.updatingLocation ==> scr.message == SearchingMessage)
      && (scr.showLogo <==> s.lastLocationError.None? && servicesEnabled && !s.updatingLocation)
      && (scr.showLogo ==> scr.message == "")
  {
  }
}
