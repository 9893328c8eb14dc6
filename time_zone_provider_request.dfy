/**
 * TimeZoneProviderRequest: what the location time zone manager asks of a
 * provider, either to start sending updates within an initialization timeout
 * or to stop. Requests are compared by the identity of their timeout object,
 * not by its value.
 */
module TimeZoneProviderRequests {
  import opened JavaTypes

  /** java.time.Duration, compared here only by reference. */
  class Duration {
    const seconds: Int64
    const nanos: int

    constructor (seconds: Int64, nanos: int)
      ensures this.seconds == seconds && this.nanos == nanos
    {
      this.seconds := seconds;
      this.nanos := nanos;
    }
  }

  class TimeZoneProviderRequest {
    const sendUpdates: bool
    const initializationTimeout: Duration?

    constructor (sendUpdates: bool, initializationTimeout: Duration?)
      ensures this.sendUpdates == sendUpdates && this.initializationTimeout == initializationTimeout
    {
      this.sendUpdates := sendUpdates;
      this.initializationTimeout := initializationTimeout;
    }

    /**
     * equals: true for this very object; false for null and for an object of
     * another class; otherwise true iff both send updates alike and hold the
     * same timeout object.
     */
    predicate Equals(o: object?)
      ensures o == this ==> Equals(o)
      ensures o == null || !(o is TimeZoneProviderRequest) ==> !Equals(o)
      ensures o is TimeZoneProviderRequest ==>
                (Equals(o) <==> sendUpdates == (o as TimeZoneProviderRequest).sendUpdates
                                && initializationTimeout == (o as TimeZoneProviderRequest).initializationTimeout)
    {
      if this == o then true
      else if o == null || !(o is TimeZoneProviderRequest) then false
      else
        var that := o as TimeZoneProviderRequest;
        sendUpdates == that.sendUpdates && initializationTimeout == that.initializationTimeout
    }
  }

  /** The class's static state: the one stop request, created when the class is loaded. */
  class RequestFactory {
    const stopUpdates: TimeZoneProviderRequest

    constructor ()
      ensures Valid()
    {
      stopUpdates := new TimeZoneProviderRequest(false, null);
    }

    /** STOP_UPDATES neither sends updates nor has a timeout. */
    predicate Valid() {
      !stopUpdates.sendUpdates && stopUpdates.initializationTimeout == null
    }

    /** createStartUpdatesRequest: a new request to send updates; a null timeout throws NullPointerException (None). */
    method CreateStartUpdatesRequest(initializationTimeout: Duration?) returns (r: Option<TimeZoneProviderRequest>)
      ensures r.None? <==> initializationTimeout == null
      ensures r.Some? ==> fresh(r.value) && r.value.sendUpdates && r.value.initializationTimeout == initializationTimeout
    {
      if initializationTimeout == null {
        return None;
      }
      var request := new TimeZoneProviderRequest(true, initializationTimeout);
      r := Some(request);
    }

    /** createStopUpdatesRequest: always the shared stop request. */
    function CreateStopUpdatesRequest(): (r: TimeZoneProviderRequest)
      requires Valid()
      ensures r == stopUpdates
      ensures !r.sendUpdates && r.initializationTimeout == null
    {
      stopUpdates
    }
  }

  /** equals is symmetric. */
  lemma EqualsSymmetric(a: TimeZoneProviderRequest, b: TimeZoneProviderRequest)
    ensures a.Equals(b) <==> b.Equals(a)
  {
  }

  /** equals is transitive. */
  lemma EqualsTransitive(a: TimeZoneProviderRequest, b: TimeZoneProviderRequest, c: TimeZoneProviderRequest)
    requires a.Equals(b) && b.Equals(c)
    ensures a.Equals(c)
  {
  }

  /** A request never equals a Duration, its own timeout included. */
  lemma NotEqualToDuration(a: TimeZoneProviderRequest, d: Duration)
    ensures !a.Equals(d)
  {
  }

  /**
   * Two start requests holding distinct Duration objects are unequal, even
   * when the durations have the same value.
   */
  lemma DistinctTimeoutsUnequal(a: TimeZoneProviderRequest, b: TimeZoneProviderRequest)
    requires a.sendUpdates && b.sendUpdates
    requires a.initializationTimeout != b.initializationTimeout
    ensures !a.Equals(b) && !b.Equals(a)
    ensures a.initializationTimeout != null && b.initializationTimeout != null
            && a.initializationTimeout.seconds == b.initializationTimeout.seconds
            && a.initializationTimeout.nanos == b.initializationTimeout.nanos
            ==> !a.Equals(b)
  {
  }

  /** A start request never equals the stop request, and the one shared stop request equals itself. */
  lemma StartIsNotStop(factory: RequestFactory, start: TimeZoneProviderRequest)
    requires factory.Valid() && start.sendUpdates
    ensures !start.Equals(factory.CreateStopUpdatesRequest())
    ensures factory.CreateStopUpdatesRequest().Equals(factory.CreateStopUpdatesRequest())
  {
  }
}
