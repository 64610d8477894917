/**
 * Structured request logging: the JSON handler's key rename, the
 * trace-correlated logger, the health-check skip list, and the request log
 * line written after each handled request.
 */
module Logging {
  import opened Wrappers
  import Http

  datatype Value = Str(s: string) | Int(i: int) | Bool(b: bool)

  /** An `slog.Attr`. */
  datatype Attr = Attr(key: string, value: Value)

  /** `slog.MessageKey`. */
  const MessageKey := "msg"

  function Keys(attrs: seq<Attr>): (keys: seq<string>)
    ensures |keys| == |attrs|
    ensures forall i :: 0 <= i < |attrs| ==> keys[i] == attrs[i].key
  {
    seq(|attrs|, i requires 0 <= i < |attrs| => attrs[i].key)
  }

  /** The `ReplaceAttr` hook of the JSON handler. */
  function ReplaceAttr(groups: seq<string>, a: Attr): Attr
  {
    if a.key == MessageKey then a.(key := "message") else a
  }

  /**
   * Only the message key is renamed, to "message"; values and every other
   * attribute pass unchanged, and renaming twice is renaming once.
   */
  lemma ReplaceAttrRenamesOnlyMessage(groups: seq<string>, a: Attr)
    ensures ReplaceAttr(groups, a).value == a.value
    ensures a.key == MessageKey ==> ReplaceAttr(groups, a).key == "message"
    ensures a.key != MessageKey ==> ReplaceAttr(groups, a) == a
    ensures ReplaceAttr(groups, ReplaceAttr(groups, a)) == ReplaceAttr(groups, a)
  {
  }

  /** The span context of a request; an absent ID is one for which `HasTraceID`/`HasSpanID` is false. */
  datatype SpanContext = SpanContext(traceId: Option<string>, spanId: Option<string>)

  /** A logger: the default one, or the default one with attributes added by `With`. */
  datatype Logger = Default | With(attrs: seq<Attr>)

  /** The correlation attributes: `trace_id` if there is a trace ID, then `span_id` if there is a span ID. */
  function TraceAttrs(sc: SpanContext): seq<Attr>
  {
    (if sc.traceId.Some? then [Attr("trace_id", Str(sc.traceId.value))] else []) +
    (if sc.spanId.Some? then [Attr("span_id", Str(sc.spanId.value))] else [])
  }

  /** The correlation keys in order, each present exactly when its ID is. */
  lemma TraceAttrsKeys(sc: SpanContext)
    ensures Keys(TraceAttrs(sc)) ==
      (if sc.traceId.Some? then ["trace_id"] else []) + (if sc.spanId.Some? then ["span_id"] else [])
    ensures TraceAttrs(sc) == [] <==> sc.traceId.None? && sc.spanId.None?
  {
    var keys := Keys(TraceAttrs(sc));
    assert |keys| == |TraceAttrs(sc)|;
  }

  /**
   * `FromContext(ctx)`: the default logger unchanged when the context has
   * neither a trace ID nor a span ID, otherwise the default logger with the
   * correlation attributes appended one by one.
   */
  method FromContext(sc: SpanContext) returns (l: Logger)
    ensures sc.traceId.None? && sc.spanId.None? ==> l == Default
    ensures sc.traceId.Some? || sc.spanId.Some? ==> l == With(TraceAttrs(sc))
  {
    if sc.traceId.None? && sc.spanId.None? {
      return Default;
    }
    var attrs: seq<Attr> := [];
    if sc.traceId.Some? {
      attrs := attrs + [Attr("trace_id", Str(sc.traceId.value))];
    }
    if sc.spanId.Some? {
      attrs := attrs + [Attr("span_id", Str(sc.spanId.value))];
    }
    return With(attrs);
  }

  /** `responseWriter`: forwards every `WriteHeader` and remembers the last code. */
  class ResponseWriter {
    var statusCode: int
    /** The codes passed on to the wrapped `http.ResponseWriter`, in order. */
    var forwarded: seq<int>

    ghost predicate Valid()
      reads this
    {
      statusCode == Http.CapturedStatus(forwarded)
    }

    /** The middleware wraps the writer with `statusCode: http.StatusOK`. */
    constructor ()
      ensures Valid() && forwarded == [] && statusCode == Http.StatusOK
    {
      statusCode := Http.StatusOK;
      forwarded := [];
    }

    method WriteHeader(code: int)
      requires Valid()
      modifies this
      ensures Valid()
      ensures forwarded == old(forwarded) + [code]
      ensures statusCode == code
    {
      statusCode := code;
      forwarded := forwarded + [code];
    }
  }

  /** `shouldSkipLogging(path)`: the health-check and metrics endpoints. */
  function ShouldSkipLogging(path: string): (skip: bool)
    ensures skip <==> path in {"/isAlive", "/isReady", "/metrics"}
  {
    path == "/isAlive" || path == "/isReady" || path == "/metrics"
  }

  /** What the logging middleware reads from an `http.Request`. */
  datatype RequestInfo = RequestInfo(verb: string, path: string, remoteAddr: string, userAgent: string)

  /**
   * The logging middleware around one request: `writes` are the status
   * codes the next handler writes and `durationMs` the elapsed time.
   * A skipped path reaches `next` with the original writer and logs
   * nothing; any other path is served through a status-capturing writer
   * and then logged with method, path, status, duration, remote address and
   * user agent, in that order, followed by the correlation attributes.
   */
  method Serve(r: RequestInfo, sc: SpanContext, durationMs: int, writes: seq<int>)
    returns (line: Option<seq<Attr>>, wrapped: bool, forwarded: seq<int>)
    ensures forwarded == writes
    ensures line.None? <==> ShouldSkipLogging(r.path)
    ensures wrapped <==> line.Some?
    ensures line.Some? ==> (line.value ==
      [ Attr("method", Str(r.verb)),
        Attr("path", Str(r.path)),
        Attr("status", Int(Http.CapturedStatus(writes))),
        Attr("duration", Int(durationMs)),
        Attr("remote_addr", Str(r.remoteAddr)),
        Attr("user_agent", Str(r.userAgent)) ] + TraceAttrs(sc))
  {
    if ShouldSkipLogging(r.path) {
      return None, false, writes;
    }
    var w := new ResponseWriter();
    for i := 0 to |writes|
      invariant w.Valid() && w.forwarded == writes[..i]
    {
      w.WriteHeader(writes[i]);
    }
    assert writes[..|writes|] == writes;

    var logAttrs := [
      Attr("method", Str(r.verb)),
      Attr("path", Str(r.path)),
      Attr("status", Int(w.statusCode)),
      Attr("duration", Int(durationMs)),
      Attr("remote_addr", Str(r.remoteAddr)),
      Attr("user_agent", Str(r.userAgent))
    ];
    if sc.traceId.Some? {
      logAttrs := logAttrs + [Attr("trace_id", Str(sc.traceId.value))];
    }
    if sc.spanId.Some? {
      logAttrs := logAttrs + [Attr("span_id", Str(sc.spanId.value))];
    }
    return Some(logAttrs), true, w.forwarded;
  }
}
