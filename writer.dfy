/**
 * The shadow response writer (timeoutWriter). A handler that runs under a
 * deadline writes into it instead of the real writer: headers, status and body
 * are held back until the controller commits them, and once the controller
 * stores a terminal error every later write is refused.
 *
 * The pure functions over State say what each operation does; the class
 * TimeoutWriter performs the operations in place and is proved against them.
 */
module Writer {
  import opened Http

  /**
   * checkWriteHeaderCode (defined in timeout.go): a status code outside
   * 100..999 is a programming error and panics.
   */
  function CheckWriteHeaderCode(code: int): (fault: Option<PanicValue>)
    ensures fault.Some? <==> code < 100 || code > 999
    ensures fault.Some? ==> fault.value == InvalidStatusCode(code)
  {
    if code < 100 || code > 999 then Some(InvalidStatusCode(code)) else None
  }

  /** The fields of a timeoutWriter. */
  datatype State = State(
    err: Option<Error>,   // the terminal error
    headers: Header,      // the shadow header map
    code: int,            // the status to commit
    written: bool,        // whether the status is final
    buf: seq<byte>,       // the body written so far
    n: int                // the byte counter
  )

  /** The writer the controller builds for each request. */
  const Reset := State(None, map[], StatusOK, false, [], 0)

  /**
   * What every reachable state satisfies: the counter is the buffer's length,
   * the status is valid, and until the status is final it is 200 and there
   * is no body.
   */
  ghost predicate Inv(s: State) {
    && s.n == |s.buf|
    && CheckWriteHeaderCode(s.code).None?
    && (!s.written ==> s.code == StatusOK && s.buf == [])
  }

  /** How a status write ended. */
  datatype HeaderNote =
    | Applied            // the status became final
    | IgnoredAfterError  // a terminal error is set: silently ignored
    | Superfluous        // the status was already final: a diagnostic is logged
    | Invalid            // the code is out of range: panic

  datatype HeaderStep = HeaderStep(next: State, note: HeaderNote)

  /** writeHeaderLocked: validation first, then the terminal error, then first-wins. */
  function AfterWriteHeader(s: State, code: int): (step: HeaderStep) {
    if CheckWriteHeaderCode(code).Some? then HeaderStep(s, Invalid)
    else if s.err.Some? then HeaderStep(s, IgnoredAfterError)
    else if s.written then HeaderStep(s, Superfluous)
    else HeaderStep(s.(written := true, code := code), Applied)
  }

  datatype WriteStep = WriteStep(next: State, count: int, err: Option<Error>)

  /** Write and WriteString: refuse after the terminal error, else finalise 200 and append. */
  function AfterWrite(s: State, p: seq<byte>): (step: WriteStep) {
    if s.err.Some? then WriteStep(s, 0, s.err)
    else
      var s1 := if s.written then s else AfterWriteHeader(s, StatusOK).next;
      WriteStep(s1.(buf := s1.buf + p, n := s1.n + |p|), |p|, None)
  }

  datatype Run = Run(state: State, panic: Option<PanicValue>)

  /** One handler operation on the shadow writer. */
  function AfterOp(s: State, op: Op): (run: Run) {
    match op
    case SetHeader(k, vv) => Run(s.(headers := s.headers[k := vv]), None)
    case WriteHeader(c) =>
      var h := AfterWriteHeader(s, c);
      Run(h.next, if h.note == Invalid then Some(InvalidStatusCode(c)) else None)
    case Write(p) => Run(AfterWrite(s, p).next, None)
    case WriteString(t) => Run(AfterWrite(s, t).next, None)
    case Raise(v) => Run(s, Some(v))
  }

  /** A handler's operations in order; the handler stops at its first panic. */
  function AfterOps(s: State, ops: Handler): (run: Run)
    decreases |ops|
  {
    if ops == [] then Run(s, None)
    else
      var r := AfterOp(s, ops[0]);
      if r.panic.Some? then r else AfterOps(r.state, ops[1..])
  }

  /**
   * The status a handler means to send, read off its operations: the first
   * WriteHeader that comes before any body write, and 200 otherwise.
   */
  function IntendedStatus(ops: Handler): (code: int)
    decreases |ops|
  {
    if ops == [] then StatusOK
    else match ops[0]
      case WriteHeader(c) => c
      case Write(_) => StatusOK
      case WriteString(_) => StatusOK
      case _ => IntendedStatus(ops[1..])
  }

  /** The body a handler means to send: all its writes, concatenated. */
  function IntendedBody(ops: Handler): (body: seq<byte>)
    decreases |ops|
  {
    if ops == [] then []
    else match ops[0]
      case Write(p) => p + IntendedBody(ops[1..])
      case WriteString(t) => t + IntendedBody(ops[1..])
      case _ => IntendedBody(ops[1..])
  }

  /** Neither an explicit panic nor an out-of-range status code. */
  ghost predicate Harmless(ops: Handler) {
    forall i :: 0 <= i < |ops| ==>
      !ops[i].Raise? && (ops[i].WriteHeader? ==> CheckWriteHeaderCode(ops[i].code).None?)
  }

  /** An io.Reader, as the chunks its Read calls return and how it ends (None: io.EOF). */
  datatype Source = Source(chunks: seq<seq<byte>>, end: Option<Error>)

  datatype CopyStep = CopyStep(next: State, total: int, err: Option<Error>)

  /**
   * io.CopyBuffer into the writer: every non-empty chunk is written, the copy
   * stops at the first write error, and otherwise ends with the reader's error.
   */
  function AfterCopy(s: State, chunks: seq<seq<byte>>, end: Option<Error>): (step: CopyStep)
    decreases |chunks|
  {
    if chunks == [] then CopyStep(s, 0, end)
    else if chunks[0] == [] then AfterCopy(s, chunks[1..], end)
    else
      var w := AfterWrite(s, chunks[0]);
      if w.err.Some? then CopyStep(w.next, w.count, w.err)
      else
        var rest := AfterCopy(w.next, chunks[1..], end);
        CopyStep(rest.next, w.count + rest.total, rest.err)
  }

  /** A Write for each non-empty chunk, in order. */
  function WritesOf(chunks: seq<seq<byte>>): (ops: Handler)
    decreases |chunks|
  {
    if chunks == [] then []
    else if chunks[0] == [] then WritesOf(chunks[1..])
    else [Write(chunks[0])] + WritesOf(chunks[1..])
  }

  /** All chunks concatenated. */
  function Concat(chunks: seq<seq<byte>>): (all: seq<byte>)
    decreases |chunks|
  {
    if chunks == [] then [] else chunks[0] + Concat(chunks[1..])
  }

  /** Every operation keeps the writer's invariant. */
  lemma {:induction false} InvPreserved(s: State, ops: Handler)
    requires Inv(s)
    ensures Inv(AfterOps(s, ops).state)
    decreases |ops|
  {
    if ops != [] {
      var r := AfterOp(s, ops[0]);
      assert Inv(r.state);
      if r.panic.None? {
        InvPreserved(r.state, ops[1..]);
      }
    }
  }

  /**
   * Once the terminal error is set, no operation changes the error, the
   * status, the written flag, the body or the counter.
   */
  lemma {:induction false} FrozenAfterError(s: State, ops: Handler)
    requires s.err.Some?
    ensures var t := AfterOps(s, ops).state;
      t.err == s.err && t.code == s.code && t.written == s.written && t.buf == s.buf && t.n == s.n
    decreases |ops|
  {
    if ops != [] {
      var r := AfterOp(s, ops[0]);
      if r.panic.None? {
        FrozenAfterError(r.state, ops[1..]);
      }
    }
  }

  /**
   * A handler run panics exactly when one of its operations raises or writes
   * an out-of-range status; the check runs even after the terminal error.
   */
  lemma {:induction false} PanicsExactlyWhenHarmful(s: State, ops: Handler)
    ensures AfterOps(s, ops).panic.None? <==> Harmless(ops)
    decreases |ops|
  {
    if ops != [] {
      var r := AfterOp(s, ops[0]);
      PanicsExactlyWhenHarmful(r.state, ops[1..]);
      if r.panic.None? && Harmless(ops[1..]) {
        forall i | 0 <= i < |ops|
          ensures !ops[i].Raise? && (ops[i].WriteHeader? ==> CheckWriteHeaderCode(ops[i].code).None?)
        {
          if i > 0 {
            assert ops[i] == ops[1..][i - 1];
          }
        }
      }
      if Harmless(ops) {
        assert Harmless(ops[1..]) by {
          forall i | 0 <= i < |ops[1..]|
            ensures !ops[1..][i].Raise?
                    && (ops[1..][i].WriteHeader? ==> CheckWriteHeaderCode(ops[1..][i].code).None?)
          {
            assert ops[1..][i] == ops[i + 1];
          }
        }
      }
    }
  }

  /**
   * Before the terminal error, the writer ends up holding exactly what the
   * handler meant to send: its first status (or 200) and all of its body.
   */
  lemma {:induction false} HoldsIntent(s: State, ops: Handler)
    requires Inv(s) && s.err.None? && Harmless(ops)
    ensures var r := AfterOps(s, ops);
      && r.panic.None?
      && r.state.err.None?
      && r.state.code == (if s.written then s.code else IntendedStatus(ops))
      && r.state.buf == s.buf + IntendedBody(ops)
      && r.state.n == s.n + |IntendedBody(ops)|
    decreases |ops|
  {
    if ops != [] {
      var r := AfterOp(s, ops[0]);
      assert Inv(r.state);
      assert Harmless(ops[1..]) by {
        forall i | 0 <= i < |ops[1..]|
          ensures !ops[1..][i].Raise?
                  && (ops[1..][i].WriteHeader? ==> CheckWriteHeaderCode(ops[1..][i].code).None?)
        {
          assert ops[1..][i] == ops[i + 1];
        }
      }
      assert !ops[0].Raise?;
      HoldsIntent(r.state, ops[1..]);
      match ops[0]
      case Write(p) =>
        assert s.buf + IntendedBody(ops) == (s.buf + p) + IntendedBody(ops[1..]);
      case WriteString(t) =>
        assert s.buf + IntendedBody(ops) == (s.buf + t) + IntendedBody(ops[1..]);
      case _ =>
    }
  }

  /** After the terminal error, a run of writes leaves the writer exactly as it was. */
  lemma {:induction false} WritesRefused(s: State, chunks: seq<seq<byte>>)
    requires s.err.Some?
    ensures AfterOps(s, WritesOf(chunks)) == Run(s, None)
    decreases |chunks|
  {
    if chunks != [] {
      WritesRefused(s, chunks[1..]);
      if chunks[0] != [] {
        assert ([Write(chunks[0])] + WritesOf(chunks[1..]))[1..] == WritesOf(chunks[1..]);
      }
    }
  }

  /** True when no chunk holds a byte. */
  ghost predicate AllEmpty(chunks: seq<seq<byte>>) {
    forall i :: 0 <= i < |chunks| ==> chunks[i] == []
  }

  /**
   * ReadFrom is a Write of each non-empty chunk in order. Before the terminal
   * error it appends every byte and reports the reader's own ending; after it,
   * the first non-empty chunk is refused with that error and nothing is copied.
   */
  lemma {:induction false} CopyIsWrites(s: State, chunks: seq<seq<byte>>, end: Option<Error>)
    ensures AfterCopy(s, chunks, end).next == AfterOps(s, WritesOf(chunks)).state
    ensures s.err.None? ==>
      && AfterCopy(s, chunks, end).err == end
      && AfterCopy(s, chunks, end).total == |Concat(chunks)|
      && AfterCopy(s, chunks, end).next.buf == s.buf + Concat(chunks)
    ensures s.err.Some? ==>
      && AfterCopy(s, chunks, end).total == 0
      && AfterCopy(s, chunks, end).err == (if AllEmpty(chunks) then end else s.err)
    decreases |chunks|
  {
    if chunks != [] {
      var tail := chunks[1..];
      CopyIsWrites(s, tail, end);
      assert AllEmpty(chunks) ==> AllEmpty(tail) by {
        if AllEmpty(chunks) {
          forall i | 0 <= i < |tail| ensures tail[i] == [] {
            assert tail[i] == chunks[i + 1];
          }
        }
      }
      assert chunks[0] == [] && AllEmpty(tail) ==> AllEmpty(chunks) by {
        if chunks[0] == [] && AllEmpty(tail) {
          forall i | 0 <= i < |chunks| ensures chunks[i] == [] {
            if i > 0 {
              assert chunks[i] == tail[i - 1];
            }
          }
        }
      }
      if chunks[0] != [] {
        var w := AfterWrite(s, chunks[0]);
        assert WritesOf(chunks) == [Write(chunks[0])] + WritesOf(tail);
        assert ([Write(chunks[0])] + WritesOf(tail))[1..] == WritesOf(tail);
        if s.err.Some? {
          WritesRefused(s, tail);
          assert !AllEmpty(chunks);
        } else {
          CopyIsWrites(w.next, tail, end);
          assert s.buf + Concat(chunks) == (s.buf + chunks[0]) + Concat(tail);
        }
      }
    }
  }

  /** The shadow writer handed to a handler that runs under a deadline. */
  class TimeoutWriter {
    var err: Option<Error>
    var headers: Header
    var code: int
    var written: bool
    var buf: seq<byte>
    var n: int

    function Snapshot(): (s: State)
      reads this
    {
      State(err, headers, code, written, buf, n)
    }

    ghost predicate Valid()
      reads this
    {
      Inv(Snapshot())
    }

    /** A fresh writer: status 200, no headers, nothing written, empty buffer. */
    constructor ()
      ensures Snapshot() == Reset
      ensures Valid()
    {
      err := None;
      headers := map[];
      code := StatusOK;
      written := false;
      buf := [];
      n := 0;
    }

    /** The status to commit: always a valid code, 200 until it is final. */
    function Status(): (c: int)
      reads this
      ensures Valid() ==> CheckWriteHeaderCode(c).None?
      ensures Valid() && !written ==> c == StatusOK
    {
      code
    }

    /** Whether the status is final; until it is, there is no body. */
    function Written(): (w: bool)
      reads this
      ensures Valid() && !w ==> buf == [] && code == StatusOK
    {
      written
    }

    /** The number of bytes written: always the length of the buffer. */
    function Size(): (size: int)
      reads this
      ensures Valid() ==> size == |buf|
    {
      n
    }

    /** The shadow header map (never the real writer's). */
    function Header(): (h: Header)
      reads this
      ensures h == Snapshot().headers
    {
      headers
    }

    /** Header()[key] = values: allowed whatever the terminal error. */
    method SetHeader(key: string, values: seq<string>)
      modifies this
      ensures headers == old(headers)[key := values]
      ensures err == old(err) && code == old(code) && written == old(written)
      ensures buf == old(buf) && n == old(n)
      ensures Run(Snapshot(), None) == AfterOp(old(Snapshot()), Op.SetHeader(key, values))
      ensures old(Valid()) ==> Valid()
    {
      headers := headers[key := values];
    }

    /**
     * WriteHeader (and writeHeaderLocked): an invalid code panics whatever the
     * state; otherwise the first status write made before the terminal error
     * wins, and later ones change nothing.
     */
    method WriteHeader(status: int) returns (note: HeaderNote)
      modifies this
      ensures note == Invalid <==> CheckWriteHeaderCode(status).Some?
      ensures note == Applied <==> CheckWriteHeaderCode(status).None? && old(err).None? && !old(written)
      ensures note == Applied ==> written && code == status
      ensures note == Superfluous <==> CheckWriteHeaderCode(status).None? && old(err).None? && old(written)
      ensures note != Applied ==> Snapshot() == old(Snapshot())
      ensures err == old(err) && headers == old(headers) && buf == old(buf) && n == old(n)
      ensures HeaderStep(Snapshot(), note) == AfterWriteHeader(old(Snapshot()), status)
      ensures old(Valid()) ==> Valid()
    {
      if CheckWriteHeaderCode(status).Some? {
        note := Invalid;
      } else if err.Some? {
        note := IgnoredAfterError;
      } else if written {
        note := Superfluous;
      } else {
        written := true;
        code := status;
        note := Applied;
      }
    }

    /** Write: refused after the terminal error; otherwise appends exactly p. */
    method Write(p: seq<byte>) returns (count: int, e: Option<Error>)
      modifies this
      ensures old(err).Some? ==> count == 0 && e == old(err) && Snapshot() == old(Snapshot())
      ensures old(err).None? ==>
        && count == |p| && e.None?
        && written && code == (if old(written) then old(code) else StatusOK)
        && buf == old(buf) + p && n == old(n) + |p|
        && err == old(err) && headers == old(headers)
      ensures WriteStep(Snapshot(), count, e) == AfterWrite(old(Snapshot()), p)
      ensures old(Valid()) ==> Valid()
    {
      if err.Some? {
        return 0, err;
      }
      if !written {
        var _ := WriteHeader(StatusOK);
      }
      buf := buf + p;
      n := n + |p|;
      count, e := |p|, None;
    }

    /** WriteString: the same as Write on the bytes of the string. */
    method WriteString(s: seq<byte>) returns (count: int, e: Option<Error>)
      modifies this
      ensures old(err).Some? ==> count == 0 && e == old(err) && Snapshot() == old(Snapshot())
      ensures old(err).None? ==>
        && count == |s| && e.None?
        && written && code == (if old(written) then old(code) else StatusOK)
        && buf == old(buf) + s && n == old(n) + |s|
        && err == old(err) && headers == old(headers)
      ensures WriteStep(Snapshot(), count, e) == AfterWrite(old(Snapshot()), s)
      ensures old(Valid()) ==> Valid()
    {
      count, e := Write(s);
    }

    /** ReadFrom: copies the source through Write only, chunk by chunk. */
    method ReadFrom(src: Source) returns (total: int, e: Option<Error>)
      modifies this
      ensures CopyStep(Snapshot(), total, e) == AfterCopy(old(Snapshot()), src.chunks, src.end)
      ensures old(Valid()) ==> Valid()
    {
      ghost var goal := AfterCopy(Snapshot(), src.chunks, src.end);
      if Valid() {
        // The copy is a run of writes, and every run of writes keeps the invariant.
        CopyIsWrites(Snapshot(), src.chunks, src.end);
        InvPreserved(Snapshot(), WritesOf(src.chunks));
      }
      total := 0;
      var i := 0;
      while i < |src.chunks|
        invariant 0 <= i <= |src.chunks|
        invariant AfterCopy(Snapshot(), src.chunks[i..], src.end).next == goal.next
        invariant total + AfterCopy(Snapshot(), src.chunks[i..], src.end).total == goal.total
        invariant AfterCopy(Snapshot(), src.chunks[i..], src.end).err == goal.err
      {
        var chunk := src.chunks[i];
        assert src.chunks[i..][0] == chunk && src.chunks[i..][1..] == src.chunks[i + 1..];
        if chunk != [] {
          var c, we := Write(chunk);
          total := total + c;
          if we.Some? {
            return total, we;
          }
        }
        i := i + 1;
      }
      e := src.end;
    }

    /** Flushing is not supported under a deadline. */
    method FlushError() returns (e: Error)
      ensures e == ErrNotSupported
    {
      e := ErrNotSupported;
    }

    /** Hijacking is not supported: no connection, no buffered reader-writer. */
    method Hijack() returns (e: Error)
      ensures e == ErrNotSupported
    {
      e := ErrNotSupported;
    }

    /** Read deadlines are not supported. */
    method SetReadDeadline(deadline: int) returns (e: Error)
      ensures e == ErrNotSupported
    {
      e := ErrNotSupported;
    }

    /** Write deadlines are not supported. */
    method SetWriteDeadline(deadline: int) returns (e: Error)
      ensures e == ErrNotSupported
    {
      e := ErrNotSupported;
    }
  }
}
