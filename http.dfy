/**
 * The vocabulary the middleware borrows from net/http and from the fox router:
 * bytes, header maps, errors, panics, the operations a handler performs on a
 * response writer, the real response writer (a sink that records what reaches
 * the client), routes with annotations, and requests.
 */
module Http {

  datatype Option<+T> = None | Some(value: T)

  newtype byte = b: int | 0 <= b < 256

  /** Durations are nanosecond counts; their 64-bit width is not modelled. */
  type Duration = int

  /** http.Header: a key to its ordered list of values (keys are taken verbatim). */
  type Header = map<string, seq<string>>

  const StatusOK := 200
  const StatusServiceUnavailable := 503

  /** http.StatusText for the codes the middleware itself uses. */
  function StatusText(code: int): (text: string) {
    if code == StatusOK then "OK"
    else if code == StatusServiceUnavailable then "Service Unavailable"
    else ""
  }

  /** The bytes of an ASCII text (every literal text used here is ASCII). */
  function Bytes(s: string): (b: seq<byte>)
    ensures |b| == |s|
  {
    seq(|s|, i requires 0 <= i < |s| => (s[i] as int % 256) as byte)
  }

  /** The reasons a context.Context reports once it is done. */
  datatype ContextError = DeadlineExceeded | Canceled | Cause(reason: string)

  /** The errors the response writers hand back to a handler. */
  datatype Error =
    | ErrHandlerTimeout           // http.ErrHandlerTimeout
    | ErrNotSupported             // fox.ErrNotSupported / http.ErrNotSupported
    | Context(err: ContextError)  // a context error stored verbatim
    | ReadFailed(reason: string)  // an io.Reader error other than io.EOF

  /** The value a panic carries. */
  datatype PanicValue =
    | InvalidStatusCode(code: int)  // "invalid status code %d"
    | Value(v: string)              // any other panic raised by a handler

  /** One thing a handler does with its response writer. */
  datatype Op =
    | SetHeader(key: string, values: seq<string>)  // Header()[key] = values
    | WriteHeader(code: int)
    | Write(p: seq<byte>)
    | WriteString(s: seq<byte>)
    | Raise(v: PanicValue)                         // the handler panics

  /** A handler, seen through what it does to the writer it is given. */
  type Handler = seq<Op>

  /**
   * What reaches the client through the real writer, in order. A status
   * write carries the header map as it stands at that moment: that is the
   * map net/http sends with the status line, and later header changes are
   * not sent.
   */
  datatype Event = StatusLine(code: int, header: Header) | Body(p: seq<byte>)

  /** The observable state of the real writer. */
  datatype SinkView = SinkView(header: Header, events: seq<Event>)

  datatype SinkRun = SinkRun(view: SinkView, panic: Option<PanicValue>)

  /** A handler run directly on the real writer; it stops at its first panic. */
  function SinkAfterOps(v: SinkView, ops: Handler): (run: SinkRun)
    decreases |ops|
  {
    if ops == [] then SinkRun(v, None)
    else match ops[0]
      case SetHeader(k, vv) => SinkAfterOps(v.(header := v.header[k := vv]), ops[1..])
      case WriteHeader(c) => SinkAfterOps(v.(events := v.events + [StatusLine(c, v.header)]), ops[1..])
      case Write(p) => SinkAfterOps(v.(events := v.events + [Body(p)]), ops[1..])
      case WriteString(s) => SinkAfterOps(v.(events := v.events + [Body(s)]), ops[1..])
      case Raise(p) => SinkRun(v, Some(p))
  }

  /**
   * http.Error(w, text, code) as the operations it performs; the
   * Content-Type and X-Content-Type-Options headers it also sets are not
   * modelled.
   */
  function HttpError(text: string, code: int): (h: Handler) {
    [WriteHeader(code), WriteString(Bytes(text + "\n"))]
  }

  /** The real fox.ResponseWriter: it records every status and body write. */
  class Sink {
    var header: Header
    var events: seq<Event>

    function View(): (v: SinkView)
      reads this
    {
      SinkView(header, events)
    }

    constructor (header: Header)
      ensures View() == SinkView(header, [])
    {
      this.header := header;
      events := [];
    }

    method SetHeader(key: string, values: seq<string>)
      modifies this
      ensures View() == old(View()).(header := old(header)[key := values])
    {
      header := header[key := values];
    }

    method WriteHeader(code: int)
      modifies this
      ensures View() == old(View()).(events := old(events) + [StatusLine(code, old(header))])
    {
      events := events + [StatusLine(code, header)];
    }

    method Write(p: seq<byte>)
      modifies this
      ensures View() == old(View()).(events := old(events) + [Body(p)])
    {
      events := events + [Body(p)];
    }
  }

  /** fox route annotations are keyed by arbitrary values; a key is modelled by its owner and name. */
  datatype Key = Key(owner: string, name: string)

  datatype Value = DurationValue(d: Duration) | OtherValue(s: string)

  datatype Route = Route(annotations: map<Key, Value>) {
    /** fox.Route.Annotation: the value stored under key, if any. */
    function Annotation(key: Key): (found: Option<Value>) {
      if key in annotations then Some(annotations[key]) else None
    }
  }

  /** fox.RouteOption, as far as annotations go: fox.WithAnnotation(key, value). */
  datatype RouteOption = WithAnnotation(key: Key, value: Value)

  /** Registering a route with an option stores its annotation. */
  function ApplyRouteOption(r: Route, o: RouteOption): (routed: Route) {
    Route(r.annotations[o.key := o.value])
  }

  /** fox.Context, reduced to what filters and resolvers may look at. */
  datatype Request = Request(verb: string, path: string, route: Route)
}
