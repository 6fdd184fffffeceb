/**
 * The timeout middleware: New folds the options into a config and installs
 * the fallback resolver, and Serve is the handler Timeout wraps around next.
 *
 * The race between the handler and the deadline is an input (Race): either
 * the handler's own signal arrives first (it finished, or it panicked), or the
 * context is done after the handler has issued some of its operations, and
 * the rest of them arrive late.
 */
module Middleware {
  import opened Http
  import opened Options
  import opened Writer
  import Annotation

  /** The resolver New installs when none is configured. */
  function GlobalResolver(dt: Duration): (r: Resolver)
    ensures forall c :: r.Resolve(c) == (dt, true)
  {
    TimeoutResolverFunc(c => (dt, true))
  }

  /** cmp.Or on resolvers: the configured one unless it is nil. */
  function OrResolver(configured: Option<Resolver>, fallback: Resolver): (r: Resolver) {
    if configured.Some? then configured.value else fallback
  }

  /**
   * resolveContext, for the duration of the deadline it derives: the
   * resolver's duration when the resolver applies, the global one otherwise.
   */
  function ResolveTimeout(resolver: Resolver, dt: Duration, c: Request): (d: Duration)
    ensures resolver.Resolve(c).1 ==> d == resolver.Resolve(c).0
    ensures !resolver.Resolve(c).1 ==> d == dt
  {
    var (rd, ok) := resolver.Resolve(c);
    if ok then rd else dt
  }

  /**
   * When no option names a resolver, every request's deadline is the global
   * duration given to New.
   */
  lemma DeadlineIsGlobalWithoutResolver(dt: Duration, opts: seq<ConfigOption>, c: Request)
    requires forall i :: 0 <= i < |opts| ==> !opts[i].WithTimeoutResolver?
    ensures ResolveTimeout(OrResolver(AppliedAll(DefaultSettings, opts).resolver, GlobalResolver(dt)), dt, c) == dt
  {
    ResolverKept(DefaultSettings, opts);
  }

  /**
   * resolveContext never looks at the route's own annotation: with the
   * fallback resolver, a route registered with After(d) still gets the global
   * duration.
   */
  lemma RouteAnnotationIgnored(dt: Duration, d: Duration, c: Request)
    ensures var annotated := c.(route := ApplyRouteOption(c.route, Annotation.After(d)));
      Annotation.UnwrapRouteTimeout(annotated.route) == (d, true)
      && ResolveTimeout(GlobalResolver(dt), dt, annotated) == dt
  {
    Annotation.AfterRoundTrip(c.route, d);
  }

  /**
   * The error stored in the shadow writer when the context is done: the
   * handler-timeout sentinel exactly for an expired deadline, any other
   * reason verbatim.
   */
  function StoredError(e: ContextError): (err: Error)
    ensures err == ErrHandlerTimeout <==> e == DeadlineExceeded
    ensures e != DeadlineExceeded ==> err == Context(e)
  {
    match e
    case DeadlineExceeded => ErrHandlerTimeout
    case _ => Context(e)
  }

  /** Some filter asks to skip the timeout for this request. */
  ghost predicate Skips(filters: seq<Filter>, c: Request) {
    exists i :: 0 <= i < |filters| && filters[i](c)
  }

  /**
   * The filter loop: the index of the first filter that skips, or the number
   * of filters when none does; the filters after it are never consulted.
   */
  method FirstSkipping(filters: seq<Filter>, c: Request) returns (k: nat)
    ensures k <= |filters|
    ensures forall i :: 0 <= i < k ==> !filters[i](c)
    ensures k < |filters| ==> filters[k](c)
    ensures k < |filters| <==> Skips(filters, c)
  {
    k := 0;
    while k < |filters|
      invariant k <= |filters|
      invariant forall i :: 0 <= i < k ==> !filters[i](c)
    {
      if filters[k](c) {
        return;
      }
      k := k + 1;
    }
  }

  /** next(cp): the handler runs on the shadow writer until it returns or panics. */
  method RunShadow(tw: TimeoutWriter, ops: Handler) returns (p: Option<PanicValue>)
    modifies tw
    ensures Run(tw.Snapshot(), p) == AfterOps(old(tw.Snapshot()), ops)
  {
    ghost var goal := AfterOps(tw.Snapshot(), ops);
    var i := 0;
    while i < |ops|
      invariant 0 <= i <= |ops|
      invariant AfterOps(tw.Snapshot(), ops[i..]) == goal
    {
      assert ops[i..][0] == ops[i] && ops[i..][1..] == ops[i + 1..];
      match ops[i] {
        case SetHeader(k, vv) =>
          tw.SetHeader(k, vv);
        case WriteHeader(code) =>
          var note := tw.WriteHeader(code);
          if note == Invalid {
            return Some(InvalidStatusCode(code));
          }
        case Write(b) =>
          var _, _ := tw.Write(b);
        case WriteString(s) =>
          var _, _ := tw.WriteString(s);
        case Raise(v) =>
          return Some(v);
      }
      i := i + 1;
    }
    p := None;
  }

  /** next(c) or resp(c): a handler runs directly on the real writer. */
  method RunDirect(w: Sink, ops: Handler) returns (p: Option<PanicValue>)
    modifies w
    ensures SinkRun(w.View(), p) == SinkAfterOps(old(w.View()), ops)
  {
    ghost var goal := SinkAfterOps(w.View(), ops);
    var i := 0;
    while i < |ops|
      invariant 0 <= i <= |ops|
      invariant SinkAfterOps(w.View(), ops[i..]) == goal
    {
      assert ops[i..][0] == ops[i] && ops[i..][1..] == ops[i + 1..];
      match ops[i] {
        case SetHeader(k, vv) =>
          w.SetHeader(k, vv);
        case WriteHeader(code) =>
          w.WriteHeader(code);
        case Write(b) =>
          w.Write(b);
        case WriteString(s) =>
          w.Write(s);
        case Raise(v) =>
          return Some(v);
      }
      i := i + 1;
    }
    p := None;
  }

  /**
   * The commit's header copy: every shadow key replaces that key in the real
   * header map, and every other real key is left alone.
   */
  method CopyHeaders(src: Header, dst: Sink)
    modifies dst
    ensures dst.header == old(dst.header) + src
    ensures dst.events == old(dst.events)
  {
    var keys := src.Keys;
    while keys != {}
      invariant keys <= src.Keys
      invariant dst.events == old(dst.events)
      invariant dst.header == old(dst.header) + map k | k in src.Keys - keys :: src[k]
      decreases keys
    {
      var k :| k in keys;
      ghost var before := map j | j in src.Keys - keys :: src[j];
      dst.SetHeader(k, src[k]);
      keys := keys - {k};
      assert (map j | j in src.Keys - keys :: src[j]) == before[k := src[k]];
    }
    assert (map j | j in src.Keys - keys :: src[j]) == src;
  }

  /** A Timeout middleware: its config and its global duration. */
  class Timeout {
    const cfg: Config
    const dt: Duration

    /**
     * New: the options are applied in order to the default config, then a
     * missing resolver is replaced by one that always yields (dt, true).
     */
    constructor New(dt: Duration, opts: seq<ConfigOption>)
      ensures this.dt == dt && fresh(cfg)
      ensures cfg.resp == AppliedAll(DefaultSettings, opts).resp
      ensures cfg.filters == AppliedAll(DefaultSettings, opts).filters
      ensures AppliedAll(DefaultSettings, opts).resolver.Some? ==>
                cfg.resolver == AppliedAll(DefaultSettings, opts).resolver
      ensures AppliedAll(DefaultSettings, opts).resolver.None? ==>
                cfg.resolver == Some(GlobalResolver(dt))
    {
      var c := new Config.Default();
      var i := 0;
      while i < |opts|
        invariant 0 <= i <= |opts|
        invariant c.Value() == AppliedAll(DefaultSettings, opts[..i])
      {
        c.Apply(opts[i]);
        assert opts[..i + 1][..i] == opts[..i];
        i := i + 1;
      }
      assert opts[..|opts|] == opts;
      c.resolver := Some(OrResolver(c.resolver, GlobalResolver(dt)));
      cfg := c;
      this.dt := dt;
    }
  }

  /** Which signal the controller's select receives first. */
  datatype Race =
    | HandlerFirst                                // done, or the handler's panic
    | ContextFirst(err: ContextError, issued: nat)  // ctx.Done() after `issued` operations

  /** How a request was served. */
  datatype Served =
    | Direct(panic: Option<PanicValue>)                           // global timeout disabled
    | Filtered(deadline: Duration, panic: Option<PanicValue>)     // a filter skipped the timeout
    | Committed(deadline: Duration)                               // the handler's output was copied
    | Substituted(deadline: Duration, panic: Option<PanicValue>)  // the responder answered instead
    | Reraised(deadline: Duration, p: PanicValue)                 // the handler's panic, re-raised

  function Min(a: nat, b: nat): (m: nat) {
    if a <= b then a else b
  }

  /**
   * The handler Timeout(next) returns, serving request c on real writer w.
   * It returns the shadow writer it created, if any, so that what was held in
   * it can be stated.
   */
  method Serve(t: Timeout, c: Request, next: Handler, race: Race, w: Sink)
    returns (r: Served, tw: TimeoutWriter?)
    requires t.cfg.resolver.Some?
    modifies w
    // Disabled: next runs as it is, on the original writer.
    ensures t.dt <= 0 ==>
      && tw == null
      && r == Direct(SinkAfterOps(old(w.View()), next).panic)
      && w.View() == SinkAfterOps(old(w.View()), next).view
    // Otherwise the deadline comes from the resolver.
    ensures t.dt > 0 ==> !r.Direct? && r.deadline == ResolveTimeout(t.cfg.resolver.value, t.dt, c)
    // A skipping filter: next runs on the original writer.
    ensures t.dt > 0 && Skips(t.cfg.filters, c) ==>
      && tw == null
      && r.Filtered? && r.panic == SinkAfterOps(old(w.View()), next).panic
      && w.View() == SinkAfterOps(old(w.View()), next).view
    ensures t.dt > 0 && !Skips(t.cfg.filters, c) ==> tw != null && fresh(tw) && tw.Valid()
    // The handler's panic: re-raised unchanged, nothing written.
    ensures t.dt > 0 && !Skips(t.cfg.filters, c) && race.HandlerFirst?
            && AfterOps(Reset, next).panic.Some? ==>
      && r.Reraised? && r.p == AfterOps(Reset, next).panic.value
      && w.View() == old(w.View())
    // Done: headers copied, then the status (sent with the copied headers),
    // then the body.
    ensures t.dt > 0 && !Skips(t.cfg.filters, c) && race.HandlerFirst?
            && AfterOps(Reset, next).panic.None? ==>
      var held := AfterOps(Reset, next).state;
      && r.Committed?
      && w.header == old(w.header) + held.headers
      && w.events == old(w.events) + [StatusLine(held.code, old(w.header) + held.headers), Body(held.buf)]
    // ... which is exactly what the handler meant to send.
    ensures t.dt > 0 && !Skips(t.cfg.filters, c) && race.HandlerFirst? && Harmless(next) ==>
      && r.Committed?
      && w.events == old(w.events) + [StatusLine(IntendedStatus(next), w.header), Body(IntendedBody(next))]
    // The context is done: the responder answers on the real writer, the
    // error is stored, and late writes do not reach the buffer.
    ensures t.dt > 0 && !Skips(t.cfg.filters, c) && race.ContextFirst? ==>
      var early := AfterOps(Reset, next[..Min(race.issued, |next|)]).state;
      var sub := SinkAfterOps(old(w.View()), t.cfg.resp);
      && r.Substituted? && r.panic == sub.panic
      && w.View() == sub.view
      && tw.err == Some(StoredError(race.err))
      && tw.code == early.code && tw.written == early.written
      && tw.buf == early.buf && tw.n == early.n
  {
    if t.dt <= 0 {
      var p := RunDirect(w, next);
      return Direct(p), null;
    }
    var deadline := ResolveTimeout(t.cfg.resolver.value, t.dt, c);
    var k := FirstSkipping(t.cfg.filters, c);
    if k < |t.cfg.filters| {
      var p := RunDirect(w, next);
      return Filtered(deadline, p), null;
    }
    tw := new TimeoutWriter();
    InvPreserved(Reset, next);
    match race
    case HandlerFirst =>
      var p := RunShadow(tw, next);
      if Harmless(next) {
        HoldsIntent(Reset, next);
        assert Reset.buf + IntendedBody(next) == IntendedBody(next);
      }
      if p.Some? {
        return Reraised(deadline, p.value), tw;
      }
      CopyHeaders(tw.headers, w);
      w.WriteHeader(tw.code);
      w.Write(tw.buf);
      r := Committed(deadline);
    case ContextFirst(e, issued) =>
      var cut := Min(issued, |next|);
      var p := RunShadow(tw, next[..cut]);
      InvPreserved(Reset, next[..cut]);
      tw.err := Some(StoredError(e));
      var q := RunDirect(w, t.cfg.resp);
      if p.None? {
        ghost var frozen := tw.Snapshot();
        var _ := RunShadow(tw, next[cut..]);
        FrozenAfterError(frozen, next[cut..]);
        InvPreserved(frozen, next[cut..]);
      }
      r := Substituted(deadline, q);
  }
}
