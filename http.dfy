/**
 * The small part of net/http the core relies on: the status codes it writes
 * and the value of a handler chain.
 */
module Http {

  const StatusOK := 200
  const StatusBadRequest := 400
  const StatusMethodNotAllowed := 405

  /**
   * The status code a status-capturing response writer reports after the
   * wrapped handler called `WriteHeader` with `writes`, in order: it starts
   * at 200 and every call overwrites it.
   */
  function CapturedStatus(writes: seq<int>): int
  {
    if writes == [] then StatusOK else writes[|writes| - 1]
  }

  /** An http.Handler, as far as the tracing middleware is concerned: the routes, possibly wrapped in a tracing layer. */
  datatype Handler =
    | Routes
    | Traced(next: Handler)
}
