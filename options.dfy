/**
 * The middleware's configuration: the timeout resolver, the response used
 * when the deadline wins, and the filters, built by folding the options
 * over the default configuration in order.
 */
module Options {
  import opened Http

  /** A filter returning true excludes the request from the timeout handler. */
  type Filter = Request -> bool

  /**
   * A Resolver computes a per-request timeout and says whether it applies;
   * TimeoutResolverFunc adapts a plain function to that interface.
   */
  datatype Resolver = TimeoutResolverFunc(f: Request -> (Duration, bool)) {
    function Resolve(c: Request): (r: (Duration, bool))
      ensures r == f(c)
    {
      f(c)
    }
  }

  /** The options New accepts; a Go nil argument is None. */
  datatype ConfigOption =
    | WithFilter(filters: seq<Filter>)
    | WithResponse(h: Option<Handler>)
    | WithTimeoutResolver(resolver: Option<Resolver>)

  /** The default substitute response: 503 with its status text as body. */
  const DefaultTimeoutResponse: Handler :=
    HttpError(StatusText(StatusServiceUnavailable), StatusServiceUnavailable)

  /** The value of a config record. */
  datatype Settings = Settings(resolver: Option<Resolver>, resp: Handler, filters: seq<Filter>)

  const DefaultSettings := Settings(None, DefaultTimeoutResponse, [])

  /** What one option's apply does to a config. */
  function Applied(s: Settings, o: ConfigOption): (after: Settings) {
    match o
    case WithFilter(fs) => s.(filters := fs)
    case WithResponse(h) => if h.Some? then s.(resp := h.value) else s
    case WithTimeoutResolver(r) => s.(resolver := r)
  }

  /** The options applied one after the other, first to last. */
  function AppliedAll(s: Settings, opts: seq<ConfigOption>): (after: Settings)
    decreases |opts|
  {
    if opts == [] then s else Applied(AppliedAll(s, opts[..|opts| - 1]), opts[|opts| - 1])
  }

  /** The config record that the options mutate in place. */
  class Config {
    var resolver: Option<Resolver>
    var resp: Handler
    var filters: seq<Filter>

    function Value(): (v: Settings)
      reads this
    {
      Settings(resolver, resp, filters)
    }

    /** defaultConfig: the default response, no resolver, no filters. */
    constructor Default()
      ensures resolver == None && resp == DefaultTimeoutResponse && filters == []
      ensures Value() == DefaultSettings
    {
      resolver := None;
      resp := DefaultTimeoutResponse;
      filters := [];
    }

    /** opt.apply(cfg) */
    method Apply(o: ConfigOption)
      modifies this
      ensures o.WithFilter? ==> filters == o.filters && resp == old(resp) && resolver == old(resolver)
      ensures o.WithResponse? ==> resp == (if o.h.Some? then o.h.value else old(resp))
                                  && filters == old(filters) && resolver == old(resolver)
      ensures o.WithTimeoutResolver? ==> resolver == o.resolver && resp == old(resp) && filters == old(filters)
      ensures Value() == Applied(old(Value()), o)
    {
      match o
      case WithFilter(fs) =>
        filters := fs;
      case WithResponse(h) =>
        if h.Some? {
          resp := h.value;
        }
      case WithTimeoutResolver(r) =>
        resolver := r;
    }
  }

  /** The last WithTimeoutResolver decides the resolver, nil included. */
  lemma {:induction false} ResolverLastWins(s: Settings, opts: seq<ConfigOption>, j: nat)
    requires j < |opts| && opts[j].WithTimeoutResolver?
    requires forall i :: j < i < |opts| ==> !opts[i].WithTimeoutResolver?
    ensures AppliedAll(s, opts).resolver == opts[j].resolver
  {
    if j < |opts| - 1 {
      ResolverLastWins(s, opts[..|opts| - 1], j);
    }
  }

  /** Without any WithTimeoutResolver the resolver is left as it was. */
  lemma {:induction false} ResolverKept(s: Settings, opts: seq<ConfigOption>)
    requires forall i :: 0 <= i < |opts| ==> !opts[i].WithTimeoutResolver?
    ensures AppliedAll(s, opts).resolver == s.resolver
  {
    if opts != [] {
      ResolverKept(s, opts[..|opts| - 1]);
    }
  }

  /** The last WithFilter replaces the whole filter list with its own. */
  lemma {:induction false} FiltersLastWins(s: Settings, opts: seq<ConfigOption>, j: nat)
    requires j < |opts| && opts[j].WithFilter?
    requires forall i :: j < i < |opts| ==> !opts[i].WithFilter?
    ensures AppliedAll(s, opts).filters == opts[j].filters
  {
    if j < |opts| - 1 {
      FiltersLastWins(s, opts[..|opts| - 1], j);
    }
  }

  /** Without any WithFilter the filter list is left as it was. */
  lemma {:induction false} FiltersKept(s: Settings, opts: seq<ConfigOption>)
    requires forall i :: 0 <= i < |opts| ==> !opts[i].WithFilter?
    ensures AppliedAll(s, opts).filters == s.filters
  {
    if opts != [] {
      FiltersKept(s, opts[..|opts| - 1]);
    }
  }

  /** The last non-nil WithResponse decides the response; nil ones are skipped. */
  lemma {:induction false} ResponseLastNonNilWins(s: Settings, opts: seq<ConfigOption>, j: nat)
    requires j < |opts| && opts[j].WithResponse? && opts[j].h.Some?
    requires forall i :: j < i < |opts| ==> !(opts[i].WithResponse? && opts[i].h.Some?)
    ensures AppliedAll(s, opts).resp == opts[j].h.value
  {
    if j < |opts| - 1 {
      ResponseLastNonNilWins(s, opts[..|opts| - 1], j);
    }
  }

  /** Without any non-nil WithResponse the response is left as it was. */
  lemma {:induction false} ResponseKept(s: Settings, opts: seq<ConfigOption>)
    requires forall i :: 0 <= i < |opts| ==> !(opts[i].WithResponse? && opts[i].h.Some?)
    ensures AppliedAll(s, opts).resp == s.resp
  {
    if opts != [] {
      ResponseKept(s, opts[..|opts| - 1]);
    }
  }

  /**
   * The default response writes status 503, with the headers as they are,
   * and then "Service Unavailable\n".
   */
  lemma DefaultResponseIs503(v: SinkView)
    ensures SinkAfterOps(v, DefaultTimeoutResponse)
         == SinkRun(v.(events := v.events + [StatusLine(503, v.header), Body(Bytes("Service Unavailable\n"))]), None)
  {
    var body := Bytes("Service Unavailable\n");
    assert StatusText(StatusServiceUnavailable) + "\n" == "Service Unavailable\n";
    assert DefaultTimeoutResponse == [WriteHeader(503), WriteString(body)];
    var v1 := v.(events := v.events + [StatusLine(503, v.header)]);
    var v2 := v1.(events := v1.events + [Body(body)]);
    assert [WriteHeader(503), WriteString(body)][1..] == [WriteString(body)];
    assert SinkAfterOps(v1, [WriteString(body)]) == SinkAfterOps(v2, []);
    assert v2.events == v.events + [StatusLine(503, v.header), Body(body)];
  }
}
