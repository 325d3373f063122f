/**
 * Sequences of events delivered to the acquisition controller, one at a time and in
 * order, and what holds along them.
 */
module AcquisitionRuns {
  import opened Wrappers
  import opened Geo
  import opened CurrentLocation

  /** The events the controller reacts to. */
  datatype Event =
    | Toggle(auth: AuthorizationStatus, servicesEnabled: bool)
    | SampleArrived(sample: Fix, now: real, distanceToBest: real)
    | ProviderFailed(error: NSError)
    | TimerFired
    | GeocodeReturned(geocodeError: Option<NSError>, placemarks: Option<seq<Placemark>>)

  /**
   * Which events can reach the controller: samples and provider errors only while the
   * delegate is attached (it is detached on every stop), the timer only while scheduled,
   * and a geocode completion only for a request still in flight.
   */
  predicate CanDeliver(s: Session, e: Event)
  {
    match e
    case Toggle(_, _) => true
    case SampleArrived(_, _, d) => s.updatingLocation && d >= 0.0
    case ProviderFailed(_) => s.updatingLocation
    case TimerFired => s.timerScheduled
    case GeocodeReturned(_, _) => s.lookupsInFlight > 0
  }

  function Step(s: Session, e: Event): Session
    requires CanDeliver(s, e)
  {
    match e
    case Toggle(auth, on) => OnGetLocation(s, auth, on)
    case SampleArrived(sample, now, d) => OnSample(s, sample, now, d).next
    case ProviderFailed(error) => OnProviderError(s, error)
    case TimerFired => OnTimeout(s)
    case GeocodeReturned(error, placemarks) => OnGeocodeCompleted(s, error, placemarks).next
  }

  /** Every event of `events` can be delivered in the state the ones before it leave. */
  predicate Feasible(s: Session, events: seq<Event>)
    decreases events
  {
    events == [] || (CanDeliver(s, events[0]) && Feasible(Step(s, events[0]), events[1..]))
  }

  function Run(s: Session, events: seq<Event>): Session
    requires Feasible(s, events)
    decreases events
  {
    if events == [] then s else Run(Step(s, events[0]), events[1..])
  }

  lemma StepKeepsConsistent(s: Session, e: Event)
    requires Consistent(s) && CanDeliver(s, e)
    ensures Consistent(Step(s, e))
  {
  }

  /** The invariant holds along every feasible run. */
  lemma {:induction false} RunKeepsConsistent(s: Session, events: seq<Event>)
    requires Consistent(s) && Feasible(s, events)
    ensures Consistent(Run(s, events))
    decreases events
  {
    if events != [] {
      StepKeepsConsistent(s, events[0]);
      RunKeepsConsistent(Step(s, events[0]), events[1..]);
    }
  }

  predicate NoToggle(events: seq<Event>)
  {
    forall i :: 0 <= i < |events| ==> !events[i].Toggle?
  }

  /** Within one session (no button press) the best fix stays and its accuracy never increases. */
  lemma {:induction false} BestAccuracyNonIncreasing(s: Session, events: seq<Event>)
    requires Feasible(s, events) && NoToggle(events)
    requires s.location.Some?
    ensures Run(s, events).location.Some?
    ensures Run(s, events).location.value.horizontalAccuracy <= s.location.value.horizontalAccuracy
    decreases events
  {
    if events != [] {
      var s' := Step(s, events[0]);
      assert s'.location.Some? && s'.location.value.horizontalAccuracy <= s.location.value.horizontalAccuracy by {
        match events[0]
        case SampleArrived(sample, now, d) =>
        case ProviderFailed(_) =>
        case TimerFired =>
        case GeocodeReturned(_, _) =>
      }
      assert NoToggle(events[1..]) by {
        forall i | 0 <= i < |events[1..]| ensures !events[1..][i].Toggle? {
          assert events[1..][i] == events[i + 1];
        }
      }
      BestAccuracyNonIncreasing(s', events[1..]);
    }
  }

  // ---------------------------------------------------------------- scenarios

  const Here := Coordinate(0.0, 0.0)

  /** The button pressed with permission and location services on. */
  function Press(s: Session): Session
  {
    OnGetLocation(s, AuthorizedWhenInUse, true)
  }

  /**
   * Not single-flight: a coarse first fix starts a lookup, and a converging fix that moved
   * lowers the busy flag and starts a second one while the first is still out.
   */
  lemma TwoLookupsInFlight()
    ensures var s1 := Press(Initial);
      var r2 := OnSample(s1, Fix(0.0, 50.0, Here), 0.0, 0.0);
      var r3 := OnSample(r2.next, Fix(1.0, 5.0, Here), 1.0, 3.0);
      && s1.updatingLocation && r2.next.updatingLocation
      && r2.lookup.Some? && r3.lookup.Some?
      && r3.next.lookupsInFlight == 2
  {
  }

  /**
   * A completion is never discarded: after stop and restart, the old request's placemark
   * still lands, though there is no fix yet; and the busy flag survives the restart, so
   * the first new sample is not geocoded.
   */
  lemma StaleReplyAfterRestart(p: Placemark)
    ensures var s1 := Press(Initial);
      var r2 := OnSample(s1, Fix(0.0, 50.0, Here), 0.0, 0.0);
      var restarted := Press(Press(r2.next));
      && s1.updatingLocation && r2.lookup.Some?
      && restarted.updatingLocation && restarted.location.None?
      && restarted.performingReverseGeocoding && restarted.lookupsInFlight == 1
      && OnSample(restarted, Fix(2.0, 50.0, Here), 2.0, 0.0).lookup.None?
      && OnGeocodeCompleted(restarted, None, Some([p])).next.placemark == Some(p)
      && OnGeocodeCompleted(restarted, None, Some([p])).next.location.None?
  {
  }

  /**
   * Fixes of 50 m at 0 s, 5 s (0.5 m away) and 11 s (0.3 m away), with the first lookup
   * still busy: the second leaves updating on, the third stops it by the stall rule.
   */
  lemma StallScenario()
    ensures var s1 := Press(Initial);
      var s2 := OnSample(s1, Fix(0.0, 50.0, Here), 0.0, 0.0).next;
      var s3 := OnSample(s2, Fix(5.0, 50.0, Here), 5.0, 0.5).next;
      var s4 := OnSample(s3, Fix(11.0, 50.0, Here), 11.0, 0.3).next;
      && s1.updatingLocation && s2.updatingLocation && s3.updatingLocation
      && !s4.updatingLocation && s4.lastLocationError.None?
  {
  }

  /** An 8 m fix converges: updating and the timer stop and the fix is kept. */
  lemma ConvergenceScenario()
    ensures var s1 := Press(Initial);
      var s2 := OnSample(s1, Fix(0.0, 8.0, Here), 0.0, 0.0).next;
      && s1.updatingLocation
      && !s2.updatingLocation && !s2.timerScheduled
      && s2.location == Some(Fix(0.0, 8.0, Here))
  {
  }

  /** No fix before the timer fires: updating stops with the timeout error on screen. */
  lemma TimeoutScenario()
    ensures var s1 := Press(Initial);
      var s2 := OnTimeout(s1);
      && s1.timerScheduled
      && !s2.updatingLocation
      && s2.lastLocationError == Some(TimeoutError)
      && Labels(s2, true).message == ErrorMessage
  {
  }
}
