# foxtimeout, modelled in Dafny

foxtimeout is a middleware for the fox HTTP router. It runs a request handler
under a deadline. The handler writes into a shadow response writer
(`timeoutWriter`), which holds back the headers, the status and the body. Then
one of three things happens:

- The handler finishes first. The controller commits what the shadow writer
  holds: it copies the headers, then writes the status, then the body.
- The deadline fires first. The controller stores a terminal error in the
  shadow writer, so that every later write by the handler is refused, and the
  configured responder answers the client. By default that is 503 with the body
  "Service Unavailable\n".
- The handler panics. The panic is re-raised unchanged and nothing is written.

The middleware is configured by options that are applied in order (filters, a
responder, a timeout resolver). Per-route timeout annotations are stored under
a private key.

The project has five modules:

- `Http` (http.dfy): the vocabulary borrowed from net/http and fox. It holds
  bytes, header maps, errors, panic values, and the operations a handler
  performs. It also holds the real response writer (`Sink`), which keeps a
  header map and records the status and body writes that reach the client.
  Each status write records the header map sent with it. The module also has
  routes, annotations and requests.
- `Annotation` (annotation.go): `After`, `None` and `UnwrapRouteTimeout`.
- `Options` (options.go): the `Config` class that options mutate in place. It
  comes with its value `Settings`, the pure fold `AppliedAll`, the `Resolver`
  adapter and `DefaultTimeoutResponse`.
- `Writer` (writer.go): the shadow writer. Each operation is a pure function
  on `State`: `AfterWriteHeader`, `AfterWrite`, `AfterOp`, `AfterOps` and
  `AfterCopy`. The class `TimeoutWriter` has the same fields and performs each
  operation in place; every method is proved equal to its function.
  `checkWriteHeaderCode` is modelled here too, although the source defines it
  in timeout.go, because writer.go calls it.
- `Middleware` (timeout.go): `Timeout.New`, the resolver fallback,
  `resolveContext`, the filter loop, the header copy, and `Serve`. `Serve` is
  the handler that `Timeout(next)` returns.

A handler is modelled as the sequence of operations it performs on the writer
it is given: `SetHeader`, `WriteHeader`, `Write`, `WriteString`, or `Raise` for
a panic. A run stops at the first panic. A status code outside 100..999 panics
with `InvalidStatusCode(code)` and changes nothing. The race between the
handler goroutine and the deadline is an input to `Serve`, of type `Race`:

- `HandlerFirst`: the handler's own signal wins. Whether that signal is `Done`
  or a panic follows from its operations.
- `ContextFirst(err, issued)`: the context is done after the handler has issued
  `issued` operations. The handler's remaining operations arrive late.

`Serve` runs those late operations against the shadow writer after the
substitution, and its contract shows that they change neither the real writer
nor the held status and body.

Go strings and byte slices are both `seq<byte>`. Durations are unbounded
integers. The reason a context is done is a `ContextError`: `DeadlineExceeded`,
`Canceled`, or another cause.

Where the code differs from its own doc comments and tests, the model follows
the code:

- `After` and `None` are documented as setting a custom timeout for one route
  and as disabling the timeout for one route (annotation.go:13-14 and
  annotation.go:19-20). However, `resolveContext` (timeout.go:146-152) never
  calls `unwrapRouteTimeout` (annotation.go:25-31). The annotations therefore
  have no effect on the deadline (`RouteAnnotationIgnored`), although
  `TestMiddleware_WithAfter` and `TestMiddleware_WithNone`
  (timeout_test.go:124-148) expect them to. The missing wiring is not
  modelled.
- The middleware is bypassed only when the duration given to `New` is not
  positive (timeout.go:71-75). `None()` stores the zero duration, and a
  resolver may return a zero or negative duration with `true`. Neither
  disables the timeout: `resolveContext` passes the duration to
  `context.WithTimeout` (timeout.go:147-149), which yields a context that is
  already past its deadline.
- `resolveContext` is called on every request before the filter loop
  (timeout.go:79-87). A request that a filter excludes from the timeout
  handler (options.go:54) still consults the resolver.
- The doc comment of `WithFilter` says that it appends to the filter list
  (options.go:53), but the code replaces the list (options.go:57-61).
  `FiltersLastWins` states the replacing behaviour.

## Model

| member | source | states |
|---|---|---|
| `Annotation.After` | annotation.go:15-17 | the route option stores the given duration under the package's private key |
| `Annotation.None` | annotation.go:21-23 | the route option stores the zero duration under the private key, the same option as `After(0)` |
| `Annotation.UnwrapRouteTimeout` | annotation.go:25-31 | reports `true` exactly when the route has an annotation under the private key, and then its duration; `(0, false)` otherwise |
| `Annotation.AfterRoundTrip` | annotation.go:15-17 | a route registered with `After(dt)` unwraps to exactly `(dt, true)` |
| `Annotation.NoneRoundTrip` | annotation.go:21-23 | a route registered with `None()` unwraps to `(0, true)` |
| `Annotation.OtherKeysIgnored` | annotation.go:25-28 | an annotation under any key other than the private one leaves the unwrapped timeout unchanged |
| `Options.Resolver.Resolve` | options.go:37-39 | `TimeoutResolverFunc(f).Resolve(c)` is exactly `f(c)` |
| `Options.Config.Default` | options.go:47-51 | the default config has the default 503 responder, no resolver and no filters |
| `Options.Config.Apply` | options.go:57-86 | `WithFilter` sets the filter list to exactly its argument; `WithResponse` replaces the responder only when it is non-nil; `WithTimeoutResolver` sets the resolver, nil included; no other field changes |
| `Options.FiltersLastWins` | options.go:57-61 | after any sequence of options, the filters are those of the last `WithFilter` |
| `Options.FiltersKept` | options.go:57-61 | without a `WithFilter`, the filter list is left as it was |
| `Options.ResponseLastNonNilWins` | options.go:66-72 | the responder is the one given to the last non-nil `WithResponse`; nil ones are skipped |
| `Options.ResponseKept` | options.go:66-72 | without a non-nil `WithResponse`, the responder is left as it was |
| `Options.ResolverLastWins` | options.go:82-86 | the resolver is the one given to the last `WithTimeoutResolver`, nil included |
| `Options.ResolverKept` | options.go:82-86 | without a `WithTimeoutResolver`, the resolver is left as it was |
| `Options.DefaultResponseIs503` | options.go:75-77 | the default responder writes status 503 with the headers as they stand, then the body "Service Unavailable\n", and does not panic |
| `Writer.CheckWriteHeaderCode` | timeout.go:154-158 | faults exactly when `code < 100 \|\| code > 999`, with that code in the panic value |
| `Writer.InvPreserved` | writer.go:83-110 | every operation sequence keeps the invariant: `n == \|buf\|`, the status is valid, and until it is final the status is 200 and the body empty |
| `Writer.FrozenAfterError` | writer.go:86-102 | once `err` is set, no operation changes `err`, `code`, `written`, `buf` or `n` |
| `Writer.WritesRefused` | writer.go:86-88 | once `err` is set, a run of writes leaves the state exactly as it was |
| `Writer.PanicsExactlyWhenHarmful` | writer.go:98-102 | a run panics if and only if some operation raises or writes an out-of-range status; validation runs even after `err` is set |
| `Writer.HoldsIntent` | writer.go:83-110 | before `err` is set, the writer holds the handler's first status written before any body (200 otherwise) and the concatenation of all its writes |
| `Writer.CopyIsWrites` | writer.go:118-125 | `ReadFrom` has the effect of one `Write` per non-empty chunk in order; without `err` it appends every byte and reports the reader's ending; with `err` it copies nothing and returns that error at the first non-empty chunk |
| `Writer.TimeoutWriter.constructor` | timeout.go:98-104 | a fresh writer has status 200, no headers, `written` false, `n` 0 and an empty buffer |
| `Writer.TimeoutWriter.Status` | writer.go:48-50 | the status is always a valid code, and it is 200 until the status is final |
| `Writer.TimeoutWriter.Written` | writer.go:52-54 | while not written, the body is empty and the status 200 |
| `Writer.TimeoutWriter.Size` | writer.go:56-58 | the byte count is the buffer's length |
| `Writer.TimeoutWriter.Header` | writer.go:79-81 | returns the shadow writer's own header map (the one `SetHeader` updates), never the real writer's |
| `Writer.TimeoutWriter.SetHeader` | writer.go:79-81 | a header set through `Header()` changes the shadow map only, and is allowed even after `err` is set; a writer satisfying the invariant still satisfies it afterwards |
| `Writer.TimeoutWriter.WriteHeader` | writer.go:98-116 | an invalid code panics whatever the state; a valid code sets the status only when `err` is unset and nothing was written (first wins); otherwise it changes nothing and is superfluous or ignored; a writer satisfying the invariant still satisfies it afterwards |
| `Writer.TimeoutWriter.Write` | writer.go:83-96 | after `err`, returns `(0, err)` and changes nothing; otherwise makes the status final (200 if it was not yet), appends exactly `p` and adds `\|p\|` to `n`; a writer satisfying the invariant still satisfies it afterwards |
| `Writer.TimeoutWriter.WriteString` | writer.go:60-73 | the same contract as `Write`, for the string's bytes; a writer satisfying the invariant still satisfies it afterwards |
| `Writer.TimeoutWriter.ReadFrom` | writer.go:118-125 | the new state, byte total and error are those of `AfterCopy`, that is, repeated `Write` calls that stop at the first write error; a writer satisfying the invariant still satisfies it afterwards |
| `Writer.TimeoutWriter.FlushError` | writer.go:127-129 | always returns the not-supported error and changes no state |
| `Writer.TimeoutWriter.Hijack` | writer.go:131-133 | always returns the not-supported error and changes no state |
| `Writer.TimeoutWriter.SetReadDeadline` | writer.go:135-137 | always returns the not-supported error and changes no state |
| `Writer.TimeoutWriter.SetWriteDeadline` | writer.go:139-141 | always returns the not-supported error and changes no state |
| `Middleware.GlobalResolver` | timeout.go:52-55 | the fallback resolver yields `(dt, true)` for every request |
| `Middleware.Timeout.New` | timeout.go:46-61 | the config is the default with the options applied in order; a configured non-nil resolver is kept, and a missing one is replaced by the fallback |
| `Middleware.ResolveTimeout` | timeout.go:146-152 | the deadline is the resolver's duration when the resolver applies, and the global duration otherwise |
| `Middleware.DeadlineIsGlobalWithoutResolver` | timeout.go:52-55 | when no option names a resolver, every request's deadline is the duration given to `New` |
| `Middleware.RouteAnnotationIgnored` | timeout.go:146-152 | a route annotated with `After(d)` still gets the global deadline, although its annotation unwraps to `(d, true)` |
| `Middleware.StoredError` | timeout.go:134-139 | the stored error is the handler-timeout sentinel exactly when the context's error is `DeadlineExceeded`, and that error verbatim otherwise |
| `Middleware.FirstSkipping` | timeout.go:82-87 | returns the index of the first filter that skips, or the filter count when none does; earlier filters returned false, and the result is below the count exactly when some filter skips |
| `Middleware.RunShadow` | timeout.go:108-117 | running the handler on the shadow writer gives the state and panic of `AfterOps` |
| `Middleware.RunDirect` | timeout.go:71-75 | running a handler directly on the real writer gives the view and panic of `SinkAfterOps` |
| `Middleware.CopyHeaders` | timeout.go:125-128 | every shadow header key replaces that key in the real map, and every other real key is untouched |
| `Middleware.Serve` | timeout.go:70-144 | when the global duration is non-positive, or a filter skips, the handler runs directly on the real writer. Otherwise, on the handler's panic, the same value is re-raised and nothing is written. On `Done`, the held headers are copied, then the held status is written and sent with the real headers merged with the held ones, then the held body is written. The status and body are exactly what the handler meant to send. On `CtxDone`, the error is stored as `StoredError`, the responder runs on the real writer, and late operations change neither the real writer nor the held status, body or count |

## Left out

- Concurrency: the goroutine, the `done` and `panicChan` channels, the
  `select` and the writer's mutex. The race outcome is an input to `Serve`,
  and all operations are sequential.
- The two `sync.Pool`s (timeout.go:24-30, writer.go:25-30). Every request gets
  a freshly reset writer, and `ReadFrom`'s scratch buffer is not modelled. As a
  result, balanced acquire and release of pooled buffers is not stated.
- `context.WithTimeout`, the timers and `cancel`. The deadline is reported
  as the resolved duration in the `Served` result. Whether it fires is the
  `Race` input.
- `relevantCaller` and `log.Printf` (timeout.go:160-175, writer.go:104-105).
  A superfluous status write returns the note `Superfluous` and changes no
  state.
- `Push` (writer.go:75-77), `w.SetReadDeadline(time.Now())` on the real writer
  (timeout.go:140), `CloneWith` and `Close` (timeout.go:106, timeout.go:110).
  They forward to the fox router, which is not part of this model.
- `Middleware` (timeout.go:40-42) only binds `New(dt, opts...).Timeout`. It is
  covered by `Timeout.New` and `Serve`.
- The real writer's own semantics (net/http's first status wins, implicit 200,
  informational 1xx codes). It is modelled as a log of status and body writes
  plus its header map.
- `SinkAfterOps` logs a status line for any code. net/http's own `WriteHeader`
  panics on a code outside 100..999, so on the `Direct` and `Filtered` paths of
  `Serve` a handler that writes status 42 does not panic in the model. On the
  shadow path it does panic, through `CheckWriteHeaderCode`.
- The header changes that `http.Error` makes (Content-Type,
  X-Content-Type-Options and the Content-Length deletion). It is modelled as a
  status write followed by the text and a newline.
- Header key canonicalisation and aliasing of header value slices between the
  shadow and the real maps. Keys are used verbatim and values are copied.
- Handlers that react to the results of their own writes (for example, stopping
  after `ErrHandlerTimeout`). A handler is a fixed sequence of operations.
- Route-annotation wiring into the deadline, because the code does not have it.
  Annotations reach fox through `WithAnnotation`, which is modelled as an
  insertion into the route's annotation map; fox's own storage is not part of
  this model.
- Annotation.UnwrapRouteTimeout: requires that whatever is stored under the
  private key is a duration. The Go type assertion would panic otherwise, and
  only `After` and `None` can store under that unexported key.
- Writer.TimeoutWriter.Write: the byte counter `n` and `ReadFrom`'s total are
  unbounded integers. Go's `int` and `int64` overflow, and `bytes.Buffer`'s
  `ErrTooLarge` panic, are not modelled.
- timeout_test.go itself, which sleeps and wires a router. Its expectations are
  used only as evidence for the contracts above.
