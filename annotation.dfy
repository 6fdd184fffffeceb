/**
 * Per-route timeout annotations: After and None store a duration under the
 * package's private annotation key, and UnwrapRouteTimeout reads it back.
 */
module Annotation {
  import Http

  /**
   * The package's private key (a value of an unexported struct type): no other
   * package can build it, so only After and None ever store under it.
   */
  const CtxKey: Http.Key := Http.Key("foxtimeout", "key")

  /** A route option that sets a custom timeout for one route. */
  function After(dt: Http.Duration): (o: Http.RouteOption)
    ensures o.key == CtxKey && o.value == Http.DurationValue(dt)
  {
    Http.WithAnnotation(CtxKey, Http.DurationValue(dt))
  }

  /** A route option that stores the zero duration for one route. */
  function None(): (o: Http.RouteOption)
    ensures o.key == CtxKey && o.value == Http.DurationValue(0)
    ensures o == After(0)
  {
    Http.WithAnnotation(CtxKey, Http.DurationValue(0))
  }

  /** Whatever is stored under the private key is a duration. */
  ghost predicate WellAnnotated(r: Http.Route) {
    CtxKey in r.annotations ==> r.annotations[CtxKey].DurationValue?
  }

  /**
   * The route's own timeout: (dt, true) when the route carries an annotation
   * under the private key, (0, false) when it does not.
   */
  function UnwrapRouteTimeout(r: Http.Route): (res: (Http.Duration, bool))
    requires WellAnnotated(r)
    ensures res.1 <==> CtxKey in r.annotations
    ensures !res.1 ==> res.0 == 0
    ensures res.1 ==> r.annotations[CtxKey] == Http.DurationValue(res.0)
  {
    match r.Annotation(CtxKey)
    case Some(v) => (v.d, true)
    case None => (0, false)
  }

  /** A route registered with After(dt) resolves to exactly (dt, true). */
  lemma AfterRoundTrip(r: Http.Route, dt: Http.Duration)
    ensures WellAnnotated(Http.ApplyRouteOption(r, After(dt)))
    ensures UnwrapRouteTimeout(Http.ApplyRouteOption(r, After(dt))) == (dt, true)
  {
  }

  /** A route registered with None() resolves to (0, true). */
  lemma NoneRoundTrip(r: Http.Route)
    ensures WellAnnotated(Http.ApplyRouteOption(r, None()))
    ensures UnwrapRouteTimeout(Http.ApplyRouteOption(r, None())) == (0, true)
  {
  }

  /** Annotations under any other key are never consulted. */
  lemma OtherKeysIgnored(r: Http.Route, k: Http.Key, v: Http.Value)
    requires WellAnnotated(r)
    requires k != CtxKey
    ensures WellAnnotated(Http.ApplyRouteOption(r, Http.WithAnnotation(k, v)))
    ensures UnwrapRouteTimeout(Http.ApplyRouteOption(r, Http.WithAnnotation(k, v))) == UnwrapRouteTimeout(r)
  {
  }
}
