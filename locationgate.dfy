/**
 * The location step of src/tbw/permissions/LocationGate.jsx. The failsafe
 * timer and the geolocation callbacks are not modelled as timing: each of
 * them is a later call of `Finish` with its payload, in whatever order they
 * happen to fire. `granted` records the payloads `onGranted` receives.
 */
module LocationGate {

  /** The payloads `finish` is called with. */
  datatype Payload =
    | FallbackNoGeo
    | NoGeoApi
    | Located(lat: real, lon: real)
    | DeniedOrUnavailable

  datatype Status = Idle | Working | Done

  class Gate {
    /** `doneRef.current`. */
    var done: bool
    var status: Status
    /** The payloads passed to `onGranted`, oldest first. */
    var granted: seq<Payload>

    /** The latch has delivered exactly one payload once it is set, and none before. */
    predicate Valid()
      reads this
    {
      |granted| == (if done then 1 else 0)
    }

    constructor ()
      ensures Valid() && !done && status == Idle && granted == []
    {
      done := false;
      status := Idle;
      granted := [];
    }

    /** `finish(payload)`: the first call delivers its payload and sets "done"; later calls do nothing. */
    method Finish(p: Payload)
      requires Valid()
      modifies this
      ensures Valid() && done
      ensures old(done) ==> granted == old(granted) && status == old(status)
      ensures !old(done) ==> granted == [p] && status == Done
    {
      if done {
        return;
      }
      done := true;
      status := Done;
      granted := granted + [p];
    }

    /**
     * `request()`: status "working", then `NO_GEO_API` at once when there
     * is no geolocation API. After completion the status stays "working",
     * since `finish` no longer updates it.
     */
    method Request(hasGeolocation: bool)
      requires Valid()
      modifies this
      ensures Valid()
      ensures old(done) ==> status == Working && granted == old(granted) && done
      ensures !old(done) && !hasGeolocation ==> status == Done && granted == [NoGeoApi] && done
      ensures !old(done) && hasGeolocation ==> status == Working && granted == [] && !done
    {
      status := Working;
      if !hasGeolocation {
        Finish(NoGeoApi);
      }
    }
  }
}
