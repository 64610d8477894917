/**
 * The OpenTelemetry HTTP middleware: the URL scheme it reports, the span
 * name, the status-capturing response writer, and the disabled
 * pass-through.
 */
module TelemetryMiddleware {
  import opened Wrappers
  import Http

  /**
   * `scheme(r)`: "https" whenever the connection carries TLS state, else a
   * non-empty `X-Forwarded-Proto` header verbatim, else "http".
   */
  function Scheme(hasTls: bool, forwardedProto: string): (r: string)
    ensures r != ""
  {
    if hasTls then "https"
    else if forwardedProto != "" then forwardedProto
    else "http"
  }

  /** TLS state wins over any header; a header is only used without TLS; "http" is the last resort. */
  lemma SchemeChoice(hasTls: bool, forwardedProto: string)
    ensures hasTls ==> Scheme(hasTls, forwardedProto) == "https"
    ensures !hasTls && forwardedProto != "" ==> Scheme(hasTls, forwardedProto) == forwardedProto
    ensures !hasTls && forwardedProto == "" ==> Scheme(hasTls, forwardedProto) == "http"
    ensures Scheme(hasTls, forwardedProto) in {"https", "http", forwardedProto}
  {
  }

  /** The server span's name: the method, one space, the path. */
  function SpanName(verb: string, path: string): (name: string)
    ensures |name| == |verb| + 1 + |path|
    ensures name[..|verb|] == verb && name[|verb|] == ' ' && name[|verb| + 1..] == path
  {
    verb + " " + path
  }

  /** `responseWriter`: forwards every `WriteHeader` and remembers the last code. */
  class ResponseWriter {
    var statusCode: int
    /** The codes passed on to the wrapped `http.ResponseWriter`, in order. */
    var forwarded: seq<int>

    ghost predicate Valid()
      reads this
    {
      statusCode == Http.CapturedStatus(forwarded)
    }

    /** The middleware wraps the writer with `statusCode: http.StatusOK`. */
    constructor ()
      ensures Valid() && forwarded == [] && statusCode == Http.StatusOK
    {
      statusCode := Http.StatusOK;
      forwarded := [];
    }

    method WriteHeader(code: int)
      requires Valid()
      modifies this
      ensures Valid()
      ensures forwarded == old(forwarded) + [code]
      ensures statusCode == code
    {
      statusCode := code;
      forwarded := forwarded + [code];
    }
  }

  /**
   * The status recorded on the span and in the metrics when the wrapped
   * handler calls `WriteHeader` with `writes`: the last code written, or 200
   * when none was.
   */
  method CaptureStatus(writes: seq<int>) returns (status: int, forwarded: seq<int>)
    ensures status == Http.CapturedStatus(writes)
    ensures forwarded == writes
  {
    var wrapped := new ResponseWriter();
    for i := 0 to |writes|
      invariant wrapped.Valid() && wrapped.forwarded == writes[..i]
    {
      wrapped.WriteHeader(writes[i]);
    }
    assert writes[..|writes|] == writes;
    status, forwarded := wrapped.statusCode, wrapped.forwarded;
  }

  /** `Middleware`: whether telemetry is on, and whether its instruments were created. */
  class Middleware {
    const enabled: bool
    var hasTracer: bool
    var hasRequestCounter: bool
    var hasRequestDuration: bool

    constructor (enabled: bool)
      ensures this.enabled == enabled
      ensures !hasTracer && !hasRequestCounter && !hasRequestDuration
    {
      this.enabled := enabled;
      hasTracer, hasRequestCounter, hasRequestDuration := false, false, false;
    }

    /** `Handler(next)`: a disabled middleware hands back `next` itself. */
    function Handler(next: Http.Handler): (h: Http.Handler)
      ensures !enabled ==> h == next
      ensures enabled ==> h == Http.Traced(next)
    {
      if !enabled then next else Http.Traced(next)
    }
  }

  /**
   * `NewMiddleware(enabled)`: a disabled middleware is returned without any
   * instrument; an enabled one gets a tracer, a counter and a histogram,
   * and a failure to create an instrument returns nil with that error.
   */
  method NewMiddleware(enabled: bool, counterError: Option<string>, histogramError: Option<string>)
    returns (m: Middleware?, err: Option<string>)
    ensures !enabled ==> m != null && err.None? && !m.hasTracer && !m.hasRequestCounter && !m.hasRequestDuration
    ensures enabled && counterError.Some? ==> m == null && err == counterError
    ensures enabled && counterError.None? && histogramError.Some? ==> m == null && err == histogramError
    ensures enabled && counterError.None? && histogramError.None? ==>
      m != null && err.None? && m.hasTracer && m.hasRequestCounter && m.hasRequestDuration
    ensures m != null ==> m.enabled == enabled
  {
    var mw := new Middleware(enabled);
    if !enabled {
      return mw, None;
    }
    mw.hasTracer := true;
    if counterError.Some? {
      return null, counterError;
    }
    mw.hasRequestCounter := true;
    if histogramError.Some? {
      return null, histogramError;
    }
    mw.hasRequestDuration := true;
    return mw, None;
  }
}
